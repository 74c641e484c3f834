/** The runner of src/pumpprobe.py, the copy the Qt application drives: the
  * experiment record, `make_experiment`, and `run`, which uploads both
  * pulses (unless repeating) and sweeps the phase of channel 2 while
  * reading the lock-in. It has no STM and returns `(data, dt)`. */
module QtPumpProbe {
  import opened Results
  import opened Numeric
  import opened Waveform
  import opened Transport
  import opened Devices
  import opened PhaseSweep
  import StmPumpProbe

  datatype Experiment = Experiment(pump: Pulse, probe: Pulse, phaseRange: real, samples: nat, lockinFreq: nat)

  datatype Config = Config(lockinIp: string, lockinPort: int, lockinFreq: nat, awgId: string, sampleRate: real)

  /** `make_experiment`: both pulses get the one time spread given. */
  function MakeExperiment(timeSpread: real, pumpAmp: real, pumpWidth: real, pumpEdge: real,
                          probeAmp: real, probeWidth: real, probeEdge: real,
                          phaseRange: real, samples: nat, lockinFreq: nat): (e: Experiment)
    ensures e.pump.timeSpread == timeSpread && e.probe.timeSpread == timeSpread
    ensures e.pump.amp == pumpAmp && e.pump.width == pumpWidth && e.pump.edge == pumpEdge
    ensures e.probe.amp == probeAmp && e.probe.width == probeWidth && e.probe.edge == probeEdge
    ensures e.phaseRange == phaseRange && e.samples == samples && e.lockinFreq == lockinFreq
  {
    Experiment(Pulse(pumpAmp, pumpWidth, pumpEdge, timeSpread), Pulse(probeAmp, probeWidth, probeEdge, timeSpread),
               phaseRange, samples, lockinFreq)
  }

  /** The channel whose phase the sweep moves. */
  const SweepChannel: nat := 2

  /** Square-wave modulation of channel 2, the function sync, then channel
    * 2 fed into channel 1: sync comes before the combination here. */
  function LinkCommands(freq: real): seq<Scpi> {
    ModulationCommands(2, freq) + SyncCommands(false, true) + CombineCommands(1, 2)
  }

  /** This copy sends the same commands as the STM runner once the pulses
    * are up, but in another order: the sync and the combination swap
    * places. */
  lemma LinkReordered(freq: real)
    ensures multiset(LinkCommands(freq)) == multiset(StmPumpProbe.LinkCommands(freq))
    ensures LinkCommands(freq) != StmPumpProbe.LinkCommands(freq)
    ensures LinkCommands(freq)[|ModulationCommands(2, freq)|] == Command(Fixed("FUNC:ARB:SYNC"), NoArg)
    ensures StmPumpProbe.LinkCommands(freq)[|ModulationCommands(2, freq)|] == Command(Source(1, "COMBine:FEED"), ChannelName(2))
  {
    LinkSameCommands(freq);
    LinkOrder(freq);
  }

  /** Both runners link the channels with the same commands. */
  lemma LinkSameCommands(freq: real)
    ensures multiset(LinkCommands(freq)) == multiset(StmPumpProbe.LinkCommands(freq))
  {
    SwapTail(ModulationCommands(2, freq), SyncCommands(false, true), CombineCommands(1, 2));
  }

  /** Right after the modulation this copy syncs where the STM runner
    * combines. */
  lemma LinkOrder(freq: real)
    ensures LinkCommands(freq)[|ModulationCommands(2, freq)|] == Command(Fixed("FUNC:ARB:SYNC"), NoArg)
    ensures StmPumpProbe.LinkCommands(freq)[|ModulationCommands(2, freq)|] == Command(Source(1, "COMBine:FEED"), ChannelName(2))
  {
    var m, y, c := ModulationCommands(2, freq), SyncCommands(false, true), CombineCommands(1, 2);
    assert LinkCommands(freq)[|m|] == y[0];
    assert StmPumpProbe.LinkCommands(freq)[|m|] == c[0];
  }

  /** Everything the upload sends: both resets, the pump on channel 1, the
    * probe on channel 2, then the modulation, the sync and the
    * combination. */
  function UploadEvents(e: Experiment, rate: real, freq: real): seq<Event> {
    Awgs([Rst]) + [ToLockIn("*CLS")] + Awgs(StmPumpProbe.PairCommands(e.pump, e.probe, rate) + LinkCommands(freq))
  }

  /** The phases swept: `linspace(-phase_range, phase_range, samples)`. */
  function Phases(e: Experiment): seq<real> { Linspace(-e.phaseRange, e.phaseRange, e.samples) }

  /** Where a run leaves things: the readings and the delays, in the order
    * `run` returns them, the exception, and the bench and the console
    * afterwards. */
  datatype RunEnd = RunEnd(data: seq<real>, dt: seq<real>, raised: Option<string>, events: seq<Event>,
                           awgReplies: seq<Reply>, lockinReplies: seq<Reply>, lines: seq<string>)

  /** The sweep of channel 2 from trace `e1`; no time is taken off the
    * delays. */
  function SweepThen(c: Config, e: Experiment, awgUp: bool, lockinUp: bool,
                     e1: seq<Event>, a1: seq<Reply>, s0: seq<Reply>, l1: seq<string>): RunEnd
  {
    var sw := SweepFrom(awgUp, lockinUp, s0, l1, e1, SweepChannel, Phases(e), e.probe.timeSpread, 0.0, c.sampleRate);
    RunEnd(sw.data, sw.dt, sw.raised, sw.events, a1, sw.replies, sw.lines)
  }

  /** A run of `e` from trace `e0`, reply scripts `a0` (AWG) and `s0`
    * (lock-in) and console `l0`. */
  function RunFrom(c: Config, e: Experiment, repeat: bool, awgUp: bool, lockinUp: bool,
                   e0: seq<Event>, a0: seq<Reply>, s0: seq<Reply>, l0: seq<string>): RunEnd
  {
    var upload := if repeat then None else StmPumpProbe.UploadError(awgUp, lockinUp);
    if upload.Some? then
      RunEnd([], [], upload, e0 + (if awgUp then Awgs([Rst]) else []), a0, s0, l0)
    else if repeat then SweepThen(c, e, awgUp, lockinUp, e0, a0, s0, l0)
    else SweepThen(c, e, awgUp, lockinUp, e0 + UploadEvents(e, c.sampleRate, c.lockinFreq as real),
                   Skip(a0, 2), s0, l0 + StmPumpProbe.UploadNotes(a0))
  }

  /** The sweep as src/pumpprobe.py writes it: every iteration reads
    * `self.lockIn`, which the runner never sets (it keeps `self.lockin`),
    * so with a phase to sweep it raises after the first phase write and
    * `*WAI`, or before them without an AWG handle. */
  function SweepAsWritten(c: Config, e: Experiment, awgUp: bool, lockinUp: bool,
                          e0: seq<Event>, a0: seq<Reply>, s0: seq<Reply>, l0: seq<string>): RunEnd
  {
    var phases := Phases(e);
    if phases == [] then SweepThen(c, e, awgUp, lockinUp, e0, a0, s0, l0)
    else if !awgUp then RunEnd([], [], Some(NoneExpected()), e0, a0, s0, l0)
    else RunEnd([], [], Some(NoLockInAttribute), e0 + Awgs([PhaseCmd(SweepChannel, phases[0]), Wai]), a0, s0, l0)
  }

  /** A run of `e` as src/pumpprobe.py is written: without `repeat` the
    * upload stops at the call of `create_pulse`, after both resets, or at
    * the first missing handle; with `repeat` the sweep stops at
    * `self.lockIn`. */
  function RunFromAsWritten(c: Config, e: Experiment, repeat: bool, awgUp: bool, lockinUp: bool,
                            e0: seq<Event>, a0: seq<Reply>, s0: seq<Reply>, l0: seq<string>): RunEnd
  {
    if repeat then SweepAsWritten(c, e, awgUp, lockinUp, e0, a0, s0, l0)
    else
      var raised := if awgUp && lockinUp then Some(CreatePulseArity) else StmPumpProbe.UploadError(awgUp, lockinUp);
      RunEnd([], [], raised, e0 + (if awgUp then Awgs([Rst]) else []) + (if awgUp && lockinUp then [ToLockIn("*CLS")] else []),
             a0, s0, l0)
  }

  /** As written, a run that uploads always raises and leaves no readings;
    * with both instruments connected it raises `create_pulse`'s TypeError
    * having sent only the two resets. */
  lemma AsWrittenNeverUploads(c: Config, e: Experiment, repeat: bool, awgUp: bool, lockinUp: bool,
                              e0: seq<Event>, a0: seq<Reply>, s0: seq<Reply>, l0: seq<string>)
    ensures !repeat ==> RunFromAsWritten(c, e, repeat, awgUp, lockinUp, e0, a0, s0, l0).raised.Some?
    ensures !repeat && awgUp && lockinUp ==>
      RunFromAsWritten(c, e, repeat, awgUp, lockinUp, e0, a0, s0, l0)
      == RunEnd([], [], Some(CreatePulseArity), e0 + Awgs([Rst]) + [ToLockIn("*CLS")], a0, s0, l0)
  {
  }

  /** As written, no run ever reads the lock-in: it returns normally only
    * when repeating with no sample to take, and then as intended; a
    * repeated run with samples and an AWG raises at `self.lockIn` after
    * the first phase write and `*WAI`. */
  lemma AsWrittenNeverSweeps(c: Config, e: Experiment, repeat: bool, awgUp: bool, lockinUp: bool,
                             e0: seq<Event>, a0: seq<Reply>, s0: seq<Reply>, l0: seq<string>)
    ensures RunFromAsWritten(c, e, repeat, awgUp, lockinUp, e0, a0, s0, l0).data == []
    ensures RunFromAsWritten(c, e, repeat, awgUp, lockinUp, e0, a0, s0, l0).lockinReplies == s0
    ensures RunFromAsWritten(c, e, repeat, awgUp, lockinUp, e0, a0, s0, l0).raised.None? <==> repeat && e.samples == 0
    ensures repeat && e.samples == 0 ==>
      RunFromAsWritten(c, e, repeat, awgUp, lockinUp, e0, a0, s0, l0) == RunFrom(c, e, repeat, awgUp, lockinUp, e0, a0, s0, l0)
    ensures repeat && e.samples > 0 && awgUp ==>
      RunFromAsWritten(c, e, repeat, awgUp, lockinUp, e0, a0, s0, l0)
      == RunEnd([], [], Some(NoLockInAttribute), e0 + Awgs([PhaseCmd(SweepChannel, Phases(e)[0]), Wai]), a0, s0, l0)
  {
    if repeat && e.samples == 0 {
      SweptSpec(ReadX, s0, l0, e0, SweepChannel, Phases(e), e.probe.timeSpread, 0.0, c.sampleRate);
    }
  }

  /** A run returns normally exactly when the upload (if any) finds both
    * handles and the sweep finds both handles and every answer parses, or
    * there is nothing to sweep. */
  lemma RunReturns(c: Config, e: Experiment, repeat: bool, awgUp: bool, lockinUp: bool,
                   e0: seq<Event>, a0: seq<Reply>, s0: seq<Reply>, l0: seq<string>)
    ensures RunFrom(c, e, repeat, awgUp, lockinUp, e0, a0, s0, l0).raised.None?
      <==> (repeat || (awgUp && lockinUp)) && (e.samples == 0 || (awgUp && lockinUp && AllParse(s0, e.samples)))
  {
    var e1 := if repeat then e0 else e0 + UploadEvents(e, c.sampleRate, c.lockinFreq as real);
    var l1 := if repeat then l0 else l0 + StmPumpProbe.UploadNotes(a0);
    SweptSpec(ReadX, s0, l1, e1, SweepChannel, Phases(e), e.probe.timeSpread, 0.0, c.sampleRate);
  }

  /** After the upload, with both instruments in place and every answer
    * parsing, the sweep returns one reading and one delay per sample,
    * the delay being the phase's share of the period, in samples. */
  lemma SweepCompletes(c: Config, e: Experiment, e1: seq<Event>, a1: seq<Reply>, s0: seq<Reply>, l1: seq<string>)
    requires AllParse(s0, e.samples)
    ensures var r := SweepThen(c, e, true, true, e1, a1, s0, l1);
      r.raised.None? && |r.data| == e.samples && |r.dt| == e.samples
      && r.events == e1 + PhaseSteps(SweepChannel, Phases(e))
      && forall k :: 0 <= k < e.samples ==>
           r.data[k] == ReadX(AnswerFor(s0, k)).v
           && r.dt[k] == PhaseDelay(Phases(e)[k], e.probe.timeSpread, c.sampleRate)
  {
    var phases := Phases(e);
    SweptSpec(ReadX, s0, l1, e1, SweepChannel, phases, e.probe.timeSpread, 0.0, c.sampleRate);
    var r := SweepThen(c, e, true, true, e1, a1, s0, l1);
    NoOffset(r.dt, phases, e.probe.timeSpread, c.sampleRate);
  }

  /** `phase * (time_spread / 360) * sample_rate`: the phase's share of
    * the period, in samples. */
  function PhaseDelay(phase: real, timeSpread: real, rate: real): real {
    phase * (timeSpread / 360.0) * rate
  }

  /** With nothing taken off, each delay is its phase's share of the
    * period. */
  lemma NoOffset(dt: seq<real>, phases: seq<real>, timeSpread: real, rate: real)
    requires |dt| == |phases|
    requires forall k :: 0 <= k < |phases| ==> dt[k] == DelayOf(phases[k], timeSpread, 0.0, rate)
    ensures forall k :: 0 <= k < |phases| ==> dt[k] == PhaseDelay(phases[k], timeSpread, rate)
  {
  }

  /** A run with both instruments in place and every answer parsing
    * returns `samples` readings, reading `k` being the `k`-th answer, and
    * as many delays, with no pump offset; its trace is the upload (unless
    * repeating), then the sweep of channel 2. */
  lemma RunCompletes(c: Config, e: Experiment, repeat: bool,
                     e0: seq<Event>, a0: seq<Reply>, s0: seq<Reply>, l0: seq<string>)
    requires AllParse(s0, e.samples)
    ensures var r := RunFrom(c, e, repeat, true, true, e0, a0, s0, l0);
      r.raised.None? && |r.data| == e.samples && |r.dt| == e.samples
      && r.events == (if repeat then e0 else e0 + UploadEvents(e, c.sampleRate, c.lockinFreq as real))
                     + PhaseSteps(SweepChannel, Phases(e))
      && forall k :: 0 <= k < e.samples ==>
           r.data[k] == ReadX(AnswerFor(s0, k)).v
           && r.dt[k] == PhaseDelay(Phases(e)[k], e.probe.timeSpread, c.sampleRate)
  {
    if repeat {
      SweepCompletes(c, e, e0, a0, s0, l0);
    } else {
      SweepCompletes(c, e, e0 + UploadEvents(e, c.sampleRate, c.lockinFreq as real), Skip(a0, 2), s0,
                     l0 + StmPumpProbe.UploadNotes(a0));
    }
  }

  /** What `self.create_pulse(pulse)` raises: `create_pulse` is declared
    * without `self`, so the bound call passes one argument too many. */
  const CreatePulseArity: string :=
    "TypeError('PumpProbe.create_pulse() takes 1 positional argument but 2 were given')"

  /** What reading `self.lockIn` raises: the runner's lock-in is
    * `self.lockin`. */
  const NoLockInAttribute: string := "AttributeError(\"'PumpProbe' object has no attribute 'lockIn'\")"

  /** The runner and its two instruments; the worker creates them when they
    * are missing. */
  class Runner {
    const config: Config
    const bench: Bench
    /** Python's `str` of a float, for the AWG the worker creates. */
    const show: real -> string
    var lockin: LockIn?
    var awg: Awg?

    /** The instruments there are were made from the configuration and
      * talk over the runner's bench. */
    predicate Valid()
      reads this
    {
      (lockin != null ==> lockin.bench == bench && lockin.ip == config.lockinIp)
      && (awg != null ==> awg.bench == bench && awg.driver == AppDriver && awg.id == config.awgId)
    }

    predicate Ready()
      reads this
    {
      Valid() && lockin != null && awg != null
    }

    constructor (config: Config, bench: Bench, show: real -> string)
      ensures this.config == config && this.bench == bench && this.show == show && lockin == null && awg == null
      ensures Valid()
    {
      this.config := config;
      this.bench := bench;
      this.show := show;
      lockin := null;
      awg := null;
    }

    /** Modulation, sync and combination, in that order. */
    method Link()
      requires Ready() && awg.connected
      modifies bench`events
      ensures bench.events == old(bench.events) + Awgs(LinkCommands(config.lockinFreq as real))
    {
      var _ := awg.ModulateAmplitude(config.lockinFreq as real, 2);
      var _ := awg.SyncChannels(false, true);
      var _ := awg.CombineChannels(1, 2);
      AwgsAppend(ModulationCommands(2, config.lockinFreq as real), SyncCommands(false, true));
      AwgsAppend(ModulationCommands(2, config.lockinFreq as real) + SyncCommands(false, true), CombineCommands(1, 2));
    }

    /** Both pulses, then the channel links. */
    method Program(e: Experiment, log: Log)
      requires Ready() && awg.connected
      modifies bench`events, bench`awgReplies, log
      ensures bench.events == old(bench.events)
        + Awgs(StmPumpProbe.PairCommands(e.pump, e.probe, config.sampleRate) + LinkCommands(config.lockinFreq as real))
      ensures bench.awgReplies == Skip(old(bench.awgReplies), 2)
      ensures log.lines == old(log.lines) + StmPumpProbe.UploadNotes(old(bench.awgReplies))
    {
      ghost var pair, link := StmPumpProbe.PairCommands(e.pump, e.probe, config.sampleRate), LinkCommands(config.lockinFreq as real);
      StmPumpProbe.UploadPair(awg, e.pump, e.probe, config.sampleRate, log);
      Link();
      Appended(bench.events, old(bench.events), Awgs(pair), Awgs(link));
      AwgsAppend(pair, link);
    }

    /** The upload half of `run` as intended: reset both instruments, then
      * the pulses shaped by `create_pulse`. */
    method Upload(e: Experiment, log: Log) returns (raised: Option<string>)
      requires Ready()
      modifies bench`events, bench`awgReplies, log
      ensures raised == StmPumpProbe.UploadError(awg.connected, lockin.connected)
      ensures raised.None? ==> bench.events == old(bench.events) + UploadEvents(e, config.sampleRate, config.lockinFreq as real)
      ensures raised.Some? ==> bench.events == old(bench.events) + (if awg.connected then Awgs([Rst]) else [])
      ensures bench.awgReplies == (if raised.None? then Skip(old(bench.awgReplies), 2) else old(bench.awgReplies))
      ensures log.lines == old(log.lines) + (if raised.None? then StmPumpProbe.UploadNotes(old(bench.awgReplies)) else [])
    {
      raised := StmPumpProbe.ResetPair(awg, lockin);
      if raised.Some? {
        return;
      }
      Program(e, log);
      Appended(bench.events, old(bench.events), Awgs([Rst]) + [ToLockIn("*CLS")],
               Awgs(StmPumpProbe.PairCommands(e.pump, e.probe, config.sampleRate) + LinkCommands(config.lockinFreq as real)));
    }

    /** The upload half of `run` as written: after both resets the call of
      * `create_pulse` raises, so no upload ever reaches the AWG. */
    method UploadAsWritten(e: Experiment, log: Log) returns (raised: Option<string>)
      requires Ready()
      modifies bench`events
      ensures raised.Some?
      ensures raised == (if awg.connected && lockin.connected then Some(CreatePulseArity)
                         else StmPumpProbe.UploadError(awg.connected, lockin.connected))
      ensures bench.events == old(bench.events) + (if awg.connected then Awgs([Rst]) else [])
                              + (if awg.connected && lockin.connected then [ToLockIn("*CLS")] else [])
    {
      raised := awg.Reset();
      if raised.Some? {
        return;
      }
      raised := lockin.Reset();
      if raised.Some? {
        return;
      }
      raised := Some(CreatePulseArity);
    }

    /** `run(exp, repeat)` as written: an upload raises at `create_pulse`,
      * and a repeated run at `self.lockIn` once there is a phase to sweep. */
    method RunAsWritten(e: Experiment, repeat: bool, log: Log) returns (data: seq<real>, dt: seq<real>, raised: Option<string>)
      requires Ready()
      modifies bench`events, bench`awgReplies, bench`lockinReplies, log
      ensures RunEnd(data, dt, raised, bench.events, bench.awgReplies, bench.lockinReplies, log.lines)
        == RunFromAsWritten(config, e, repeat, awg.connected, lockin.connected,
                            old(bench.events), old(bench.awgReplies), old(bench.lockinReplies), old(log.lines))
    {
      if !repeat {
        raised := UploadAsWritten(e, log);
        return [], [], raised;
      }
      var phases := Phases(e);
      if phases == [] || !awg.connected {
        dt, data, raised := Sweep(awg, lockin, SweepChannel, phases, e.probe.timeSpread, 0.0, config.sampleRate, log);
        return;
      }
      ghost var e0 := bench.events;
      var _ := awg.Write(PhaseCmd(SweepChannel, phases[0]));
      var _ := awg.Wait();
      AwgsAppend([PhaseCmd(SweepChannel, phases[0])], [Wai]);
      return [], [], Some(NoLockInAttribute);
    }

    /** `run(exp, repeat)`, as intended; it returns the readings first. */
    method Run(e: Experiment, repeat: bool, log: Log) returns (data: seq<real>, dt: seq<real>, raised: Option<string>)
      requires Ready()
      modifies bench`events, bench`awgReplies, bench`lockinReplies, log
      ensures RunEnd(data, dt, raised, bench.events, bench.awgReplies, bench.lockinReplies, log.lines)
        == RunFrom(config, e, repeat, awg.connected, lockin.connected,
                   old(bench.events), old(bench.awgReplies), old(bench.lockinReplies), old(log.lines))
    {
      if !repeat {
        raised := Upload(e, log);
        if raised.Some? {
          return [], [], raised;
        }
      }
      dt, data, raised := Sweep(awg, lockin, SweepChannel, Phases(e), e.probe.timeSpread, 0.0, config.sampleRate, log);
    }
  }
}
