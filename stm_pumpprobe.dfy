/** The STM pump-probe runner of src/pump_probe.py: the experiment record
  * and its TOML summary, `create_experiment`, which stamps the tip's
  * position on a new experiment, and `run`, which uploads both pulses
  * (unless repeating), freezes the tip, lowers the bias, sweeps the pump's
  * phase on channel 1 while reading the lock-in, then closes the channel,
  * restores the bias and releases the tip. */
module StmPumpProbe {
  import opened Results
  import opened Text
  import opened Numeric
  import opened Waveform
  import opened Transport
  import opened Devices
  import opened PhaseSweep
  import AppDevice
  import PumpProbe

  /** One coordinate of `stm_coords`: the integer 0 of the default
    * `Vector2(0, 0)`, or the raw bytes the controller answered. */
  datatype Coord = Origin | Raw(reply: string)

  /** How an f-string writes a coordinate. */
  function CoordText(c: Coord): string {
    match c
    case Origin => "0"
    case Raw(b) => BytesRepr(b)
  }

  datatype Experiment = Experiment(
    pump: Pulse, probe: Pulse, phaseRange: real, samples: nat, lockinFreq: nat,
    stmCoords: Vector2<Coord>, name: string)

  /** `PumpProbeConfig`; `defaultBias` is the `default_bias` attribute the
    * runner reads, which the dataclass does not declare. */
  datatype Config = Config(
    stmModel: string, lockinIp: string, lockinPort: int, lockinFreq: nat,
    awgId: string, sampleRate: real, savePath: string, defaultBias: Option<real>)

  // ------------------------------------------------------------------ TOML

  /** The lines `generate_toml` writes, section by section. */
  function DateLines(e: Experiment): seq<string> { ["[Date]", e.name] }

  function PositionLines(e: Experiment): seq<string> {
    ["[Position]", "x: " + CoordText(e.stmCoords.x), "y: " + CoordText(e.stmCoords.y)]
  }

  function PulseLines(header: string, p: Pulse, show: real -> string): seq<string> {
    [header, "amp: " + show(p.amp), "width: " + show(p.width), "edge: " + show(p.edge)]
  }

  function SettingsLines(e: Experiment, show: real -> string): seq<string> {
    ["[Settings]", "pulse length: " + show(e.probe.timeSpread), "samples: " + NatText(e.samples),
     "lock-in freq: " + NatText(e.lockinFreq)]
  }

  /** `generate_toml`: five blocks of lines, each line ended by a newline;
    * `show` is Python's `str` of a float. */
  function GenerateToml(e: Experiment, show: real -> string): string {
    Unlines(DateLines(e)) + Unlines(PositionLines(e)) + Unlines(PulseLines("[Pump]", e.pump, show))
    + Unlines(PulseLines("[Probe]", e.probe, show)) + Unlines(SettingsLines(e, show))
  }

  /** A coordinate's text, like any line of the position block, holds no
    * newline. */
  lemma PositionOneLine(e: Experiment)
    ensures NoBreaks(PositionLines(e))
  {
    if e.stmCoords.x.Raw? {
      BytesReprOneLine(e.stmCoords.x.reply);
    }
    if e.stmCoords.y.Raw? {
      BytesReprOneLine(e.stmCoords.y.reply);
    }
  }

  lemma PulseOneLine(header: string, p: Pulse, show: real -> string)
    requires '\n' !in header
    requires forall v: real :: '\n' !in show(v)
    ensures NoBreaks(PulseLines(header, p, show))
  {
  }

  lemma SettingsOneLine(e: Experiment, show: real -> string)
    requires forall v: real :: '\n' !in show(v)
    ensures NoBreaks(SettingsLines(e, show))
  {
    assert '\n' !in NatText(e.samples) && '\n' !in NatText(e.lockinFreq);
  }

  /** The text is exactly its seventeen lines, as long as neither the name
    * nor a float's text breaks a line. */
  lemma TomlLines(e: Experiment, show: real -> string)
    requires '\n' !in e.name
    requires forall v: real :: '\n' !in show(v)
    ensures Lines(GenerateToml(e, show))
      == DateLines(e) + PositionLines(e) + PulseLines("[Pump]", e.pump, show)
         + PulseLines("[Probe]", e.probe, show) + SettingsLines(e, show)
  {
    var a, b, c, d, f := DateLines(e), PositionLines(e), PulseLines("[Pump]", e.pump, show),
                         PulseLines("[Probe]", e.probe, show), SettingsLines(e, show);
    UnlinesAppend(a, b);
    UnlinesAppend(a + b, c);
    UnlinesAppend(a + b + c, d);
    UnlinesAppend(a + b + c + d, f);
    PositionOneLine(e);
    PulseOneLine("[Pump]", e.pump, show);
    PulseOneLine("[Probe]", e.probe, show);
    SettingsOneLine(e, show);
    NoBreaksAppend(a, b);
    NoBreaksAppend(a + b, c);
    NoBreaksAppend(a + b + c, d);
    NoBreaksAppend(a + b + c + d, f);
    LinesUnlines(a + b + c + d + f);
  }

  /** A `key: value` line read back: the key up to the first colon, the
    * value after the colon and its space. */
  function KeyValue(line: string): (string, string) {
    var k := FirstOf(line, ':', ':');
    if k + 1 < |line| && line[k + 1] == ' ' then (line[..k], line[k + 2..]) else (line, "")
  }

  /** A key without a colon is read back with its value, whatever the value
    * holds. */
  lemma KeyValueOf(key: string, value: string)
    requires ':' !in key
    ensures KeyValue(key + ": " + value) == (key, value)
  {
    var line := key + ": " + value;
    assert line == key + (": " + value);
    FirstAfter(key, ": " + value, ':');
    assert line[..|key|] == key;
    assert line[|key| + 2..] == value;
  }

  // ------------------------------------------------------------------- run

  /** What the runner raises when the configuration lacks `default_bias`. */
  const NoDefaultBias: string := "AttributeError(\"'PumpProbeConfig' object has no attribute 'default_bias'\")"

  /** The exception the upload raises: the AWG reset writes straight to its
    * handle, the lock-in reset sends straight to its socket. */
  function UploadError(awgUp: bool, lockinUp: bool): Option<string> {
    if !awgUp then Some(NoneAttribute("write"))
    else if !lockinUp then Some(NoneAttribute("send"))
    else None
  }

  /** What uploading the two pulses sends: the pump, shaped by
    * `create_arb`, on channel 1, then the probe on channel 2. */
  function PairCommands(pump: Pulse, probe: Pulse, rate: real): seq<Scpi> {
    UploadCommands(AppDriver, 1, "Pump", CreateArbAsWritten(pump), rate, pump.amp)
    + UploadCommands(AppDriver, 2, "Probe", CreateArbAsWritten(probe), rate, probe.amp)
  }

  /** Square-wave modulation of channel 2, channel 2 fed into channel 1,
    * then the function sync. */
  function LinkCommands(freq: real): seq<Scpi> {
    ModulationCommands(2, freq) + CombineCommands(1, 2) + SyncCommands(false, true)
  }

  /** Everything the upload sends: both resets, the pump on channel 1, the
    * probe on channel 2, square-wave modulation of channel 2, channel 2
    * fed into channel 1, and the function sync. */
  function UploadEvents(e: Experiment, rate: real, freq: real): seq<Event> {
    Awgs([Rst]) + [ToLockIn("*CLS")] + Awgs(PairCommands(e.pump, e.probe, rate) + LinkCommands(freq))
  }

  /** What the two uploads print about the AWG's error queue. */
  function UploadNotes(a0: seq<Reply>): seq<string> {
    [ UploadNote(AppDriver, AsResult(ReplyAt(a0, 0, VisaTimeout)).msg),
      UploadNote(AppDriver, AsResult(ReplyAt(a0, 1, VisaTimeout)).msg) ]
  }

  /** The phases swept: `linspace(-phase_range, phase_range, samples)`. */
  function Phases(e: Experiment): seq<real> { Linspace(-e.phaseRange, e.phaseRange, e.samples) }

  /** The time taken off every delay: two edges and the pump's width. */
  function PumpOffset(e: Experiment): real { 2.0 * e.pump.edge + e.pump.width }

  /** Freezing the tip, the bias of 0.01 and opening channel 1. */
  function PrepareEvents(awgUp: bool): seq<Event> {
    [ToStm(TipControlMsg("Freeze")), ToStm(SetBiasMsg(Num(0.01)))] + (if awgUp then Awgs([OutputCmd(1, true)]) else [])
  }

  /** Closing channel 1, then the default bias and releasing the tip; the
    * last two only when the default bias can be read. */
  function TeardownEvents(awgUp: bool, bias: Option<real>): seq<Event> {
    (if awgUp then Awgs([OutputCmd(1, false)]) else [])
    + (match bias
       case None => []
       case Some(b) => [ToStm(SetBiasMsg(Num(b))), ToStm(TipControlMsg("Unlimit"))])
  }

  /** Where a run leaves things: what it returns or raises, and the bench
    * and the console afterwards. */
  datatype RunEnd = RunEnd(dt: seq<real>, data: seq<real>, raised: Option<string>, events: seq<Event>,
                           awgReplies: seq<Reply>, lockinReplies: seq<Reply>, stmReplies: seq<string>,
                           lines: seq<string>)

  /** The end of a run that got past the sweep `sw`: channel 1 closed,
    * then the default bias and the release of the tip, or the exception
    * for the missing `default_bias`. */
  function TeardownFrom(bias: Option<real>, awgUp: bool, sw: SweepEnd, a1: seq<Reply>, t2: seq<string>): RunEnd {
    match bias
    case None =>
      RunEnd([], [], Some(NoDefaultBias), sw.events + TeardownEvents(awgUp, None), a1, sw.replies, t2, sw.lines)
    case Some(_) =>
      RunEnd(sw.dt, sw.data, None, sw.events + TeardownEvents(awgUp, bias), a1, sw.replies, Skip(t2, 4), sw.lines)
  }

  /** The sweep of the pump's phase from trace `e2`, then the teardown, or
    * the first exception. */
  function SweepThenRestore(c: Config, e: Experiment, awgUp: bool, lockinUp: bool,
                            e2: seq<Event>, a1: seq<Reply>, s0: seq<Reply>, t2: seq<string>, l1: seq<string>): RunEnd
  {
    var sw := SweepFrom(awgUp, lockinUp, s0, l1, e2, 1, Phases(e), e.probe.timeSpread, PumpOffset(e), c.sampleRate);
    if sw.raised.Some? then RunEnd([], [], sw.raised, sw.events, a1, sw.replies, t2, sw.lines)
    else TeardownFrom(c.defaultBias, awgUp, sw, a1, t2)
  }

  /** The measurement after the upload, from trace `e1`, scripts `a1`,
    * `s0`, `t0` and console `l1`; `stmError` is what a send to the STM
    * raises, if anything. */
  function MeasureFrom(c: Config, e: Experiment, awgUp: bool, lockinUp: bool, stmError: Option<string>,
                       e1: seq<Event>, a1: seq<Reply>, s0: seq<Reply>, t0: seq<string>, l1: seq<string>): RunEnd
  {
    if stmError.Some? then RunEnd([], [], stmError, e1, a1, s0, t0, l1)
    else SweepThenRestore(c, e, awgUp, lockinUp, e1 + PrepareEvents(awgUp), a1, s0, Skip(t0, 4), l1)
  }

  /** A run of `e` from trace `e0`, reply scripts `a0` (AWG), `s0`
    * (lock-in) and `t0` (STM) and console `l0`. An exception skips
    * everything after it. */
  function RunFrom(c: Config, e: Experiment, repeat: bool, awgUp: bool, lockinUp: bool, stmError: Option<string>,
                   e0: seq<Event>, a0: seq<Reply>, s0: seq<Reply>, t0: seq<string>, l0: seq<string>): RunEnd
  {
    var upload := if repeat then None else UploadError(awgUp, lockinUp);
    if upload.Some? then
      RunEnd([], [], upload, e0 + (if awgUp then Awgs([Rst]) else []), a0, s0, t0, l0)
    else if repeat then MeasureFrom(c, e, awgUp, lockinUp, stmError, e0, a0, s0, t0, l0)
    else MeasureFrom(c, e, awgUp, lockinUp, stmError, e0 + UploadEvents(e, c.sampleRate, c.lockinFreq as real),
                     Skip(a0, 2), s0, t0, l0 + UploadNotes(a0))
  }

  /** A run returns normally exactly when the upload (if any) finds both
    * handles, the STM takes its commands, the sweep finds both handles and
    * every answer parses (or there is nothing to sweep), and the
    * configuration has a default bias. */
  lemma RunReturns(c: Config, e: Experiment, repeat: bool, awgUp: bool, lockinUp: bool, stmError: Option<string>,
                   e0: seq<Event>, a0: seq<Reply>, s0: seq<Reply>, t0: seq<string>, l0: seq<string>)
    ensures RunFrom(c, e, repeat, awgUp, lockinUp, stmError, e0, a0, s0, t0, l0).raised.None?
      <==> (repeat || (awgUp && lockinUp)) && stmError.None?
           && (e.samples == 0 || (awgUp && lockinUp && AllParse(s0, e.samples)))
           && c.defaultBias.Some?
  {
    var e1 := e0 + (if repeat then [] else UploadEvents(e, c.sampleRate, c.lockinFreq as real));
    var l1 := l0 + (if repeat then [] else UploadNotes(a0));
    SweptSpec(ReadX, s0, l1, e1 + PrepareEvents(awgUp), 1, Phases(e), e.probe.timeSpread, PumpOffset(e), c.sampleRate);
  }

  /** After the upload, with every instrument in place, every answer
    * parsing and a default bias, the measurement returns one delay and one
    * value per sample and sends the preparation, the sweep on channel 1
    * and the teardown. */
  lemma MeasureCompletes(c: Config, e: Experiment, e1: seq<Event>, a1: seq<Reply>, s0: seq<Reply>,
                         t0: seq<string>, l1: seq<string>)
    requires AllParse(s0, e.samples) && c.defaultBias.Some?
    ensures var r := MeasureFrom(c, e, true, true, None, e1, a1, s0, t0, l1);
      r.raised.None? && |r.dt| == e.samples && |r.data| == e.samples
      && r.events == e1 + PrepareEvents(true) + PhaseSteps(1, Phases(e)) + TeardownEvents(true, c.defaultBias)
      && forall k :: 0 <= k < e.samples ==>
           r.data[k] == ReadX(AnswerFor(s0, k)).v
           && r.dt[k] == DelayOf(Phases(e)[k], e.probe.timeSpread, PumpOffset(e), c.sampleRate)
  {
    var e2 := e1 + PrepareEvents(true);
    SweptSpec(ReadX, s0, l1, e2, 1, Phases(e), e.probe.timeSpread, PumpOffset(e), c.sampleRate);
  }

  /** A run with every instrument in place, every answer parsing and a
    * default bias returns one delay and one value per sample, value `k`
    * being the `k`-th answer's and delay `k` the pump phase's delay; its
    * trace is the upload (unless repeating), freezing and biasing the tip
    * and opening channel 1, the sweep on channel 1, then closing channel 1,
    * the default bias and the release of the tip. */
  lemma RunCompletes(c: Config, e: Experiment, repeat: bool,
                     e0: seq<Event>, a0: seq<Reply>, s0: seq<Reply>, t0: seq<string>, l0: seq<string>)
    requires AllParse(s0, e.samples) && c.defaultBias.Some?
    ensures var r := RunFrom(c, e, repeat, true, true, None, e0, a0, s0, t0, l0);
      r.raised.None? && |r.dt| == e.samples && |r.data| == e.samples
      && r.events == (if repeat then e0 else e0 + UploadEvents(e, c.sampleRate, c.lockinFreq as real))
                     + PrepareEvents(true) + PhaseSteps(1, Phases(e)) + TeardownEvents(true, c.defaultBias)
      && forall k :: 0 <= k < e.samples ==>
           r.data[k] == ReadX(AnswerFor(s0, k)).v
           && r.dt[k] == DelayOf(Phases(e)[k], e.probe.timeSpread, PumpOffset(e), c.sampleRate)
  {
    if repeat {
      MeasureCompletes(c, e, e0, a0, s0, t0, l0);
    } else {
      MeasureCompletes(c, e, e0 + UploadEvents(e, c.sampleRate, c.lockinFreq as real), Skip(a0, 2), s0, t0,
                       l0 + UploadNotes(a0));
    }
  }

  /** No event sent to the STM. */
  predicate OffStm(evs: seq<Event>) { forall i :: 0 <= i < |evs| ==> !evs[i].ToStm? }

  lemma AwgsOffStm(cmds: seq<Scpi>)
    ensures OffStm(Awgs(cmds))
  {
  }

  /** What a sweep sends after `e0` never reaches the STM. */
  lemma SweepOffStm(awgUp: bool, lockinUp: bool, s0: seq<Reply>, l0: seq<string>, e0: seq<Event>, ch: nat,
                    phases: seq<real>, timeSpread: real, offset: real, rate: real)
    ensures var sw := SweepFrom(awgUp, lockinUp, s0, l0, e0, ch, phases, timeSpread, offset, rate);
      |e0| <= |sw.events| && sw.events[..|e0|] == e0 && OffStm(sw.events[|e0|..])
  {
    var sw := SweepFrom(awgUp, lockinUp, s0, l0, e0, ch, phases, timeSpread, offset, rate);
    if phases != [] && !awgUp {
    } else if phases != [] && !lockinUp {
      AwgsOffStm([PhaseCmd(ch, phases[0]), Wai]);
      assert sw.events[|e0|..] == Awgs([PhaseCmd(ch, phases[0]), Wai]);
    } else {
      var m: nat :| m <= |phases| && sw.events == e0 + PhaseSteps(ch, phases[..m]) by {
        SweptSpec(ReadX, s0, l0, e0, ch, phases, timeSpread, offset, rate);
        if sw.raised.None? {
          assert phases[..|phases|] == phases;
        }
      }
      PhaseStepsOffStm(ch, phases[..m]);
      assert sw.events[|e0|..] == PhaseSteps(ch, phases[..m]);
    }
  }

  /** Releasing the tip, `Tip Control, Unlimit`. */
  const Release: Event := ToStm(TipControlMsg("Unlimit"))

  /** After the upload, the tip is released exactly when the measurement
    * returns normally. */
  lemma MeasureReleasedIffReturns(c: Config, e: Experiment, awgUp: bool, lockinUp: bool, stmError: Option<string>,
                                  e1: seq<Event>, a1: seq<Reply>, s0: seq<Reply>, t0: seq<string>, l1: seq<string>)
    requires Release !in e1
    ensures var r := MeasureFrom(c, e, awgUp, lockinUp, stmError, e1, a1, s0, t0, l1);
      Release in r.events <==> r.raised.None?
  {
    if stmError.None? {
      var e2 := e1 + PrepareEvents(awgUp);
      AwgsOffStm([OutputCmd(1, true)]);
      assert Release !in e2;
      var sw := SweepFrom(awgUp, lockinUp, s0, l1, e2, 1, Phases(e), e.probe.timeSpread, PumpOffset(e), c.sampleRate);
      SweepOffStm(awgUp, lockinUp, s0, l1, e2, 1, Phases(e), e.probe.timeSpread, PumpOffset(e), c.sampleRate);
      assert sw.events == e2 + sw.events[|e2|..];
      assert Release !in sw.events;
      AwgsOffStm([OutputCmd(1, false)]);
    }
  }

  /** The tip is released exactly when the run returns normally: a run
    * that raises leaves it frozen, or never froze it. */
  lemma ReleasedIffReturns(c: Config, e: Experiment, repeat: bool, awgUp: bool, lockinUp: bool, stmError: Option<string>,
                           e0: seq<Event>, a0: seq<Reply>, s0: seq<Reply>, t0: seq<string>, l0: seq<string>)
    requires Release !in e0
    ensures var r := RunFrom(c, e, repeat, awgUp, lockinUp, stmError, e0, a0, s0, t0, l0);
      Release in r.events <==> r.raised.None?
  {
    var upload := if repeat then None else UploadError(awgUp, lockinUp);
    if upload.Some? {
      if awgUp {
        AwgsOffStm([Rst]);
      }
    } else if repeat {
      MeasureReleasedIffReturns(c, e, awgUp, lockinUp, stmError, e0, a0, s0, t0, l0);
    } else {
      var u := UploadEvents(e, c.sampleRate, c.lockinFreq as real);
      AwgsOffStm([Rst]);
      AwgsOffStm(PairCommands(e.pump, e.probe, c.sampleRate) + LinkCommands(c.lockinFreq as real));
      assert Release !in u;
      MeasureReleasedIffReturns(c, e, awgUp, lockinUp, stmError, e0 + u, Skip(a0, 2), s0, t0, l0 + UploadNotes(a0));
    }
  }

  /** As written, `PumpProbeConfig` declares no `default_bias`: without
    * one, every run raises and the tip is never released, however well
    * the instruments answer. */
  lemma NoDefaultBiasKeepsTip(c: Config, e: Experiment, repeat: bool, awgUp: bool, lockinUp: bool, stmError: Option<string>,
                              e0: seq<Event>, a0: seq<Reply>, s0: seq<Reply>, t0: seq<string>, l0: seq<string>)
    requires Release !in e0 && c.defaultBias.None?
    ensures var r := RunFrom(c, e, repeat, awgUp, lockinUp, stmError, e0, a0, s0, t0, l0);
      r.raised.Some? && Release !in r.events
  {
    RunReturns(c, e, repeat, awgUp, lockinUp, stmError, e0, a0, s0, t0, l0);
    ReleasedIffReturns(c, e, repeat, awgUp, lockinUp, stmError, e0, a0, s0, t0, l0);
  }

  /** The resets that open the upload: the AWG's, then the lock-in's; the
    * first missing handle raises. */
  method ResetPair(awg: Awg, lockin: LockIn) returns (raised: Option<string>)
    requires awg.bench == lockin.bench
    modifies awg.bench`events
    ensures raised == UploadError(awg.connected, lockin.connected)
    ensures awg.bench.events == old(awg.bench.events)
      + (if !awg.connected then [] else if !lockin.connected then Awgs([Rst]) else Awgs([Rst]) + [ToLockIn("*CLS")])
  {
    raised := awg.Reset();
    if raised.Some? {
      return;
    }
    raised := lockin.Reset();
  }

  /** Two waveforms already scaled to a peak of 1, the first on channel
    * 1, the second on channel 2; the instruments are reset. */
  method SendArbs(awg: Awg, pumpAmp: real, probeAmp: real, pumpArb: seq<real>, probeArb: seq<real>, rate: real, log: Log)
    requires awg.connected && awg.driver == AppDriver
    requires Peak(pumpArb) > 0.0 && Normalize(pumpArb) == pumpArb
    requires Peak(probeArb) > 0.0 && Normalize(probeArb) == probeArb
    modifies awg.bench`events, awg.bench`awgReplies, log
    ensures awg.bench.events == old(awg.bench.events)
      + Awgs(UploadCommands(AppDriver, 1, "Pump", pumpArb, rate, pumpAmp)
             + UploadCommands(AppDriver, 2, "Probe", probeArb, rate, probeAmp))
    ensures awg.bench.awgReplies == Skip(old(awg.bench.awgReplies), 2)
    ensures log.lines == old(log.lines) + UploadNotes(old(awg.bench.awgReplies))
  {
    ghost var a0 := awg.bench.awgReplies;
    var _, _ := awg.SendArbCh(pumpArb, pumpAmp, rate, "Pump", 1, log);
    var _, _ := awg.SendArbCh(probeArb, probeAmp, rate, "Probe", 2, log);
    AwgsAppend(UploadCommands(AppDriver, 1, "Pump", pumpArb, rate, pumpAmp),
               UploadCommands(AppDriver, 2, "Probe", probeArb, rate, probeAmp));
    SkipStep(a0, 0, VisaTimeout);
    SkipStep(a0, 1, VisaTimeout);
    SkipZero(a0);
  }

  /** Both pulses, shaped by `create_arb`: the pump on channel 1, then the
    * probe on channel 2. */
  method UploadPair(awg: Awg, pump: Pulse, probe: Pulse, rate: real, log: Log)
    requires awg.connected && awg.driver == AppDriver
    modifies awg.bench`events, awg.bench`awgReplies, log
    ensures awg.bench.events == old(awg.bench.events) + Awgs(PairCommands(pump, probe, rate))
    ensures awg.bench.awgReplies == Skip(old(awg.bench.awgReplies), 2)
    ensures log.lines == old(log.lines) + UploadNotes(old(awg.bench.awgReplies))
  {
    ArbIsNormalized(pump);
    ArbIsNormalized(probe);
    SendArbs(awg, pump.amp, probe.amp, CreateArbAsWritten(pump), CreateArbAsWritten(probe), rate, log);
  }

  /** The runner and the three instruments it drives, which share one
    * bench. */
  class Runner {
    const config: Config
    const bench: Bench
    const stm: AppDevice.RhkR9
    const lockin: LockIn
    const awg: Awg

    predicate Wired() {
      stm.bench == bench && lockin.bench == bench && awg.bench == bench && awg.driver == AppDriver
    }

    constructor (config: Config, bench: Bench, stm: AppDevice.RhkR9, lockin: LockIn, awg: Awg)
      requires stm.bench == bench && lockin.bench == bench && awg.bench == bench && awg.driver == AppDriver
      ensures this.config == config && this.bench == bench && this.stm == stm && this.lockin == lockin && this.awg == awg
      ensures Wired()
    {
      this.config := config;
      this.bench := bench;
      this.stm := stm;
      this.lockin := lockin;
      this.awg := awg;
    }

    /** `create_experiment`: both pulses get the same time spread, and the
      * experiment records where the tip is. */
    method CreateExperiment(timeSpread: real, pumpAmp: real, pumpWidth: real, pumpEdge: real,
                            probeAmp: real, probeWidth: real, probeEdge: real,
                            phaseRange: real, samples: nat, lockinFreq: nat)
      returns (e: Experiment, raised: Option<string>)
      requires Wired()
      modifies bench`events, bench`stmReplies
      ensures raised == stm.SendError()
      ensures e.pump == Pulse(pumpAmp, pumpWidth, pumpEdge, timeSpread)
      ensures e.probe == Pulse(probeAmp, probeWidth, probeEdge, timeSpread)
      ensures e.phaseRange == phaseRange && e.samples == samples && e.lockinFreq == lockinFreq && e.name == ""
      ensures raised.None? ==> e.stmCoords == Vector2(Raw(ReplyAt(old(bench.stmReplies), 0, Silence)),
                                                      Raw(ReplyAt(old(bench.stmReplies), 1, Silence)))
      ensures raised.None? ==> bench.events == old(bench.events) + [ToStm(AppDevice.OffsetQuery("X")), ToStm(AppDevice.OffsetQuery("Y"))]
      ensures raised.None? ==> bench.stmReplies == Skip(old(bench.stmReplies), 2)
      ensures raised.Some? ==> bench.events == old(bench.events) && bench.stmReplies == old(bench.stmReplies)
    {
      var pump := Pulse(pumpAmp, pumpWidth, pumpEdge, timeSpread);
      var probe := Pulse(probeAmp, probeWidth, probeEdge, timeSpread);
      var coords;
      coords, raised := stm.GetPosition();
      e := Experiment(pump, probe, phaseRange, samples, lockinFreq, Vector2(Raw(coords.x), Raw(coords.y)), "");
    }

    /** Modulation, combination and sync, in that order. */
    method Link()
      requires Wired() && awg.connected
      modifies bench`events
      ensures bench.events == old(bench.events) + Awgs(LinkCommands(config.lockinFreq as real))
    {
      var _ := awg.ModulateAmplitude(config.lockinFreq as real, 2);
      var _ := awg.CombineChannels(1, 2);
      var _ := awg.SyncChannels(false, true);
      AwgsAppend(ModulationCommands(2, config.lockinFreq as real), CombineCommands(1, 2));
      AwgsAppend(ModulationCommands(2, config.lockinFreq as real) + CombineCommands(1, 2), SyncCommands(false, true));
    }

    /** The upload half of `run`: reset both instruments, then the pulses. */
    method Upload(e: Experiment, log: Log) returns (raised: Option<string>)
      requires Wired()
      modifies bench`events, bench`awgReplies, log
      ensures raised == UploadError(awg.connected, lockin.connected)
      ensures raised.None? ==> bench.events == old(bench.events) + UploadEvents(e, config.sampleRate, config.lockinFreq as real)
      ensures raised.Some? ==> bench.events == old(bench.events) + (if awg.connected then Awgs([Rst]) else [])
      ensures bench.awgReplies == (if raised.None? then Skip(old(bench.awgReplies), 2) else old(bench.awgReplies))
      ensures log.lines == old(log.lines) + (if raised.None? then UploadNotes(old(bench.awgReplies)) else [])
    {
      raised := ResetPair(awg, lockin);
      if raised.Some? {
        return;
      }
      Program(e, log);
      Appended(bench.events, old(bench.events), Awgs([Rst]) + [ToLockIn("*CLS")],
               Awgs(PairCommands(e.pump, e.probe, config.sampleRate) + LinkCommands(config.lockinFreq as real)));
    }

    /** Both pulses, shaped by `create_arb`, then the channel links. */
    method Program(e: Experiment, log: Log)
      requires Wired() && awg.connected
      modifies bench`events, bench`awgReplies, log
      ensures bench.events == old(bench.events)
        + Awgs(PairCommands(e.pump, e.probe, config.sampleRate) + LinkCommands(config.lockinFreq as real))
      ensures bench.awgReplies == Skip(old(bench.awgReplies), 2)
      ensures log.lines == old(log.lines) + UploadNotes(old(bench.awgReplies))
    {
      ghost var pair, link := PairCommands(e.pump, e.probe, config.sampleRate), LinkCommands(config.lockinFreq as real);
      UploadPair(awg, e.pump, e.probe, config.sampleRate, log);
      Link();
      Appended(bench.events, old(bench.events), Awgs(pair), Awgs(link));
      AwgsAppend(pair, link);
    }

    /** Freeze the tip, lower the bias to 0.01 and open channel 1. */
    method Prepare() returns (raised: Option<string>)
      requires Wired()
      modifies bench`events, bench`stmReplies
      ensures raised == stm.SendError()
      ensures raised.None? ==> bench.events == old(bench.events) + PrepareEvents(awg.connected)
      ensures raised.None? ==> bench.stmReplies == Skip(old(bench.stmReplies), 4)
      ensures raised.Some? ==> bench.events == old(bench.events) && bench.stmReplies == old(bench.stmReplies)
    {
      ghost var t0 := bench.stmReplies;
      raised := stm.SetTipControl("freeze");
      if raised.Some? {
        return;
      }
      var _ := stm.SetBias(Num(0.01));
      var _ := awg.OpenChannel(1);
      PumpProbe.TipModes();
      SkipSkip(t0, 1, 3);
    }

    /** Close channel 1, restore the default bias and release the tip. */
    method Teardown() returns (raised: Option<string>)
      requires Wired() && stm.SendError().None?
      modifies bench`events, bench`stmReplies
      ensures raised == (if config.defaultBias.None? then Some(NoDefaultBias) else None)
      ensures bench.events == old(bench.events) + TeardownEvents(awg.connected, config.defaultBias)
      ensures bench.stmReplies == (if raised.None? then Skip(old(bench.stmReplies), 4) else old(bench.stmReplies))
    {
      ghost var t0 := bench.stmReplies;
      var _ := awg.CloseChannel(1);
      if config.defaultBias.None? {
        return Some(NoDefaultBias);
      }
      var _ := stm.SetBias(Num(config.defaultBias.value));
      var _ := stm.SetTipControl("unlimit");
      PumpProbe.TipModes();
      SkipSkip(t0, 3, 1);
      raised := None;
    }

    /** The sweep on channel 1, then the teardown. */
    method SweepAndRestore(e: Experiment, log: Log) returns (dt: seq<real>, data: seq<real>, raised: Option<string>)
      requires Wired() && stm.SendError().None?
      modifies bench`events, bench`lockinReplies, bench`stmReplies, log
      ensures RunEnd(dt, data, raised, bench.events, bench.awgReplies, bench.lockinReplies, bench.stmReplies, log.lines)
        == SweepThenRestore(config, e, awg.connected, lockin.connected, old(bench.events),
                            bench.awgReplies, old(bench.lockinReplies), old(bench.stmReplies), old(log.lines))
    {
      dt, data, raised := Sweep(awg, lockin, 1, Phases(e), e.probe.timeSpread, PumpOffset(e), config.sampleRate, log);
      ghost var sw := SweepEnd(dt, data, raised, bench.events, bench.lockinReplies, log.lines);
      if raised.Some? {
        return;
      }
      ghost var t2 := bench.stmReplies;
      raised := Teardown();
      if raised.Some? {
        dt, data := [], [];
      }
      assert RunEnd(dt, data, raised, bench.events, bench.awgReplies, bench.lockinReplies, bench.stmReplies, log.lines)
        == TeardownFrom(config.defaultBias, awg.connected, sw, bench.awgReplies, t2);
    }

    /** The part of `run` after the upload. */
    method Measure(e: Experiment, log: Log) returns (dt: seq<real>, data: seq<real>, raised: Option<string>)
      requires Wired()
      modifies bench`events, bench`lockinReplies, bench`stmReplies, log
      ensures RunEnd(dt, data, raised, bench.events, bench.awgReplies, bench.lockinReplies, bench.stmReplies, log.lines)
        == MeasureFrom(config, e, awg.connected, lockin.connected, stm.SendError(), old(bench.events),
                       bench.awgReplies, old(bench.lockinReplies), old(bench.stmReplies), old(log.lines))
    {
      dt, data := [], [];
      raised := Prepare();
      if raised.Some? {
        return;
      }
      dt, data, raised := SweepAndRestore(e, log);
    }

    /** `run(exp, repeat)`. */
    method Run(e: Experiment, repeat: bool, log: Log) returns (dt: seq<real>, data: seq<real>, raised: Option<string>)
      requires Wired()
      modifies bench`events, bench`awgReplies, bench`lockinReplies, bench`stmReplies, log
      ensures RunEnd(dt, data, raised, bench.events, bench.awgReplies, bench.lockinReplies, bench.stmReplies, log.lines)
        == RunFrom(config, e, repeat, awg.connected, lockin.connected, stm.SendError(),
                   old(bench.events), old(bench.awgReplies), old(bench.lockinReplies), old(bench.stmReplies), old(log.lines))
    {
      if !repeat {
        raised := Upload(e, log);
        if raised.Some? {
          return [], [], raised;
        }
      }
      dt, data, raised := Measure(e, log);
    }
  }
}
