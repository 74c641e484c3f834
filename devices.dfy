/** The instrument drivers of ppspectroscopy/devices.py: the lock-in
  * amplifier (raw socket), the arbitrary-waveform generator (VISA) and the
  * RHK R9 STM controller. The AWG driver of src/device.py differs only in
  * `set_amp` and in how `send_arb_ch` reports, so both are this one class,
  * told apart by `driver`. */
module Devices {
  import opened Results
  import opened Text
  import opened Waveform
  import opened Transport

  /** `Vector2(x, y)`: a position in the scan plane. */
  datatype Vector2<T> = Vector2(x: T, y: T)

  /** The text of the AttributeError Python raises when a method is looked up
    * on a handle that is None. */
  function NoneAttribute(name: string): string {
    "AttributeError(\"'NoneType' object has no attribute '" + name + "'\")"
  }

  // ================================================================ lock-in

  /** The commands `default()` sends, in order. */
  const DefaultCommands: seq<string> :=
    ["IE 2", "IMODE 0", "VMODE 1", "SEN 22", "ACGAIN 5", "AUTOMATIC 0", "AQN", "TC 10", "FLOAT 1", "LF 0"]

  function ToLockInAll(cmds: seq<string>): seq<Event> {
    seq(|cmds|, i requires 0 <= i < |cmds| => ToLockIn(cmds[i]))
  }

  class LockIn {
    const ip: string
    const bench: Bench
    /** `self.socket is not None`. */
    var connected: bool

    constructor (ip: string, bench: Bench)
      ensures this.ip == ip && this.bench == bench && !connected
    {
      this.ip := ip;
      this.bench := bench;
      connected := false;
    }

    /** `connect()`: `refusal` is the socket error the connection attempt
      * raises, if any. On failure the socket is dropped and the error's text
      * comes back with `err` set. */
    method Connect(refusal: Option<string>) returns (r: Result)
      modifies this`connected
      ensures connected <==> refusal.None?
      ensures refusal.None? ==> r == Result("Connected", false)
      ensures refusal.Some? ==> r == Result(refusal.value, true)
    {
      if refusal.Some? {
        connected := false;
        r := Result(refusal.value, true);
      } else {
        connected := true;
        r := Result("Connected", false);
      }
    }

    /** `send(msg)`: nothing is sent, and None comes back, without a socket. */
    method Send(msg: string) returns (r: Option<Result>)
      modifies bench`events
      ensures connected ==> r == Some(Result("[" + ip + "] Sent b'" + msg + "'", false))
      ensures !connected ==> r == None
      ensures bench.events == old(bench.events) + (if connected then [ToLockIn(msg)] else [])
    {
      if connected {
        bench.Put(ToLockIn(msg));
        r := Some(Result("[" + ip + "] Sent b'" + msg + "'", false));
      } else {
        r := None;
      }
    }

    /** `recv(buffer)`: the next scripted reply, or None without a socket. */
    method Recv() returns (r: Option<Result>)
      modifies bench`lockinReplies
      ensures connected ==> r == Some(AsResult(Head(old(bench.lockinReplies), Data(Silence))))
      ensures connected ==> bench.lockinReplies == Tail(old(bench.lockinReplies))
      ensures !connected ==> r == None && bench.lockinReplies == old(bench.lockinReplies)
    {
      if connected {
        var reply := bench.TakeLockIn();
        r := Some(AsResult(reply));
      } else {
        r := None;
      }
    }

    /** `reset()`: `*CLS` straight onto the socket; without one, Python
      * raises the AttributeError for `send`. */
    method Reset() returns (raised: Option<string>)
      modifies bench`events
      ensures raised == (if connected then None else Some(NoneAttribute("send")))
      ensures bench.events == old(bench.events) + (if connected then [ToLockIn("*CLS")] else [])
    {
      if connected {
        bench.Put(ToLockIn("*CLS"));
        raised := None;
      } else {
        raised := Some(NoneAttribute("send"));
      }
    }

    /** `default()`: the front-end set-up, all ten commands in order, or
      * nothing at all without a socket. */
    method Default()
      modifies bench`events
      ensures bench.events == old(bench.events) + (if connected then ToLockInAll(DefaultCommands) else [])
    {
      if connected {
        var i := 0;
        while i < |DefaultCommands|
          invariant 0 <= i <= |DefaultCommands|
          invariant bench.events == old(bench.events) + ToLockInAll(DefaultCommands[..i])
        {
          var _ := Send(DefaultCommands[i]);
          assert DefaultCommands[..i + 1] == DefaultCommands[..i] + [DefaultCommands[i]];
          assert ToLockInAll(DefaultCommands[..i + 1]) == ToLockInAll(DefaultCommands[..i]) + [ToLockIn(DefaultCommands[i])];
          i := i + 1;
        }
        assert DefaultCommands[..i] == DefaultCommands;
      }
    }
  }

  // ==================================================================== AWG

  /** Which copy of the AWG driver: ppspectroscopy/devices.py waits after
    * every amplitude write; src/device.py does not, and takes an offset. */
  datatype Driver = PackageDriver | AppDriver

  /** `SOURce{ch}:{rest}` */
  function Source(ch: nat, rest: string): Header { OnChannel("SOURce", ch, ":" + rest) }

  const Wai: Scpi := Command(Fixed("*WAI"), NoArg)
  const Rst: Scpi := Command(Fixed("*RST"), NoArg)
  const SystErr: Scpi := Command(Fixed("SYST:ERR?"), NoArg)

  function OutputCmd(ch: nat, on: bool): Scpi {
    Command(OnChannel("OUTPut", ch, ""), Word(if on then "ON" else "OFF"))
  }

  /** `OUTPut{ch} ON` and `OUTPut{ch} OFF` as written to the AWG. */
  lemma OutputText(ch: nat, on: bool, show: real -> string)
    ensures ScpiText(OutputCmd(ch, on), show) == "OUTPut" + NatText(ch) + (if on then " ON" else " OFF")
  {
    assert HeaderText(OnChannel("OUTPut", ch, "")) == "OUTPut" + NatText(ch);
  }

  function VoltCmd(ch: nat, amp: real): Scpi { Command(Source(ch, "VOLT"), Num(amp)) }

  /** The offset header as the drivers spell it, without a colon after the
    * channel number; the offset is an int and goes out in decimal. */
  function OffsetCmd(ch: nat, offset: int): Scpi {
    Command(OnChannel("SOURce", ch, "VOLT:OFFSET"), Word(IntText(offset)))
  }

  /** The offset line as written to the AWG: `SOURce{ch}VOLT:OFFSET {offset}`,
    * which is `...OFFSET 0` for the zero offset both drivers send. */
  lemma OffsetText(ch: nat, offset: int, show: real -> string)
    ensures ScpiText(OffsetCmd(ch, offset), show) == "SOURce" + NatText(ch) + "VOLT:OFFSET " + IntText(offset)
    ensures ScpiText(OffsetCmd(ch, 0), show) == "SOURce" + NatText(ch) + "VOLT:OFFSET 0"
  {
    assert HeaderText(OnChannel("SOURce", ch, "VOLT:OFFSET")) == "SOURce" + NatText(ch) + "VOLT:OFFSET";
    assert IntText(0) == "0";
  }

  function PhaseCmd(ch: nat, phase: real): Scpi { Command(Source(ch, "PHASe:ARB"), Num(phase)) }

  function Awgs(cmds: seq<Scpi>): seq<Event> {
    seq(|cmds|, i requires 0 <= i < |cmds| => ToAwg(cmds[i]))
  }

  lemma AwgsAppend(a: seq<Scpi>, b: seq<Scpi>)
    ensures Awgs(a + b) == Awgs(a) + Awgs(b)
  {
  }

  /** What `set_amp` sends. */
  function AmpCommands(driver: Driver, ch: nat, amp: real, offset: int): seq<Scpi> {
    match driver
    case PackageDriver => [VoltCmd(ch, amp), Wai, OffsetCmd(ch, 0), Wai]
    case AppDriver => [VoltCmd(ch, amp), OffsetCmd(ch, offset)]
  }

  /** What `send_arb_ch` sends, from clearing volatile memory to the error
    * query. */
  function UploadCommands(driver: Driver, ch: nat, name: string, data: seq<real>, rate: real, amp: real): seq<Scpi> {
    [ Command(Source(ch, "DATA:VOLatile:CLEar"), NoArg),
      Command(Fixed("FORMat:BORDer"), Word("SWAP")),
      BinaryBlock(Source(ch, "DATA:ARBitrary " + name + ","), data),
      Wai,
      Command(Source(ch, "FUNCtion:ARBitrary"), Word(name)),
      Command(Fixed("MMEM:STOR:DATA1"), Word("\"INT:\\" + name + ".arb\"")),
      Command(Source(ch, "FUNCtion:ARBitrary:SRATe"), Num(rate)),
      Command(Source(ch, "FUNCtion"), Word("ARB")) ]
    + AmpCommands(driver, ch, amp, 0) + [SystErr]
  }

  /** What `modulate_ampitude` sends: square-wave amplitude modulation at
    * `freq`, each setting followed by `*WAI`. */
  function ModulationCommands(ch: nat, freq: real): seq<Scpi> {
    [ Command(Source(ch, "AM:DEPT"), Word("100")), Wai,
      Command(Source(ch, "AM:DSSC"), Word("OFF")), Wai,
      Command(Source(ch, "AM:SOURCE"), Word("INT")), Wai,
      Command(Source(ch, "AM:INT:FUNC"), Word("SQU")), Wai,
      Command(Source(ch, "AM:INT:FREQ"), Num(freq)), Wai,
      Command(Source(ch, "AM:STATE"), Word("ON")), Wai,
      Command(Fixed("OUTP:SYNC:SOURCE"), ChannelName(ch)), Wai ]
  }

  /** What `sync_channels` sends. */
  function SyncCommands(syncPhase: bool, syncFunc: bool): seq<Scpi> {
    (if syncFunc then [Command(Fixed("FUNC:ARB:SYNC"), NoArg), Wai] else [])
    + (if syncPhase then [Command(Fixed("SOURce:PHAS:SYNC"), NoArg), Wai] else [])
  }

  function CombineCommands(out: nat, feed: nat): seq<Scpi> {
    [Command(Source(out, "COMBine:FEED"), ChannelName(feed)), Wai]
  }

  /** `+0,"No error"`: the answer to `SYST:ERR?` with an empty error queue. */
  const NoErrorReply: string := "+0,\"No error\""

  /** The upload is clean iff the first 13 characters of the error query's
    * answer are exactly `+0,"No error"`. */
  predicate UploadClean(answer: string) {
    |answer| >= |NoErrorReply| && answer[..|NoErrorReply|] == NoErrorReply
  }

  const UploadOk: string := "Waveform transfered without error. Instrument ready for use."

  /** What `send_arb_ch` records about the error query's answer. */
  function UploadNote(driver: Driver, answer: string): string {
    if UploadClean(answer) then UploadOk
    else match driver
      case PackageDriver => answer
      case AppDriver => "Error reported: " + answer
  }

  class Awg {
    const id: string
    const driver: Driver
    const bench: Bench
    /** Python's `str` of a float, as the f-strings of the commands use it. */
    const show: real -> string
    /** `self.device is not None`. */
    var connected: bool

    constructor (id: string, driver: Driver, bench: Bench, show: real -> string)
      ensures this.id == id && this.driver == driver && this.bench == bench && this.show == show && !connected
    {
      this.id := id;
      this.driver := driver;
      this.bench := bench;
      this.show := show;
      connected := false;
    }

    /** `connect()`: `failure` is the ValueError opening the resource raises,
      * if any; the handle is only replaced on success. */
    method Connect(failure: Option<string>) returns (r: Result)
      modifies this`connected
      ensures connected <==> (old(connected) || failure.None?)
      ensures failure.None? ==> r == Result("[" + id + "] Connected", false)
      ensures failure.Some? ==> r == Result(failure.value, true)
    {
      if failure.Some? {
        r := Result(failure.value, true);
      } else {
        connected := true;
        r := Result("[" + id + "] Connected", false);
      }
    }

    /** `write(msg)`: None, and nothing sent, without a handle; otherwise
      * the whole command line is reported as sent. */
    method Write(c: Scpi) returns (r: Option<Result>)
      modifies bench`events
      ensures connected ==> r == Some(Result("[" + id + "] Sent '" + ScpiText(c, show) + "'", false))
      ensures !connected ==> r == None
      ensures bench.events == old(bench.events) + (if connected then [ToAwg(c)] else [])
    {
      if connected {
        bench.Put(ToAwg(c));
        r := Some(Result("[" + id + "] Sent '" + ScpiText(c, show) + "'", false));
      } else {
        r := None;
      }
    }

    /** `query(msg)`: the instrument's answer, or None without a handle. */
    method Query(c: Scpi) returns (r: Option<Result>)
      modifies bench`events, bench`awgReplies
      ensures connected ==> r == Some(AsResult(Head(old(bench.awgReplies), VisaTimeout)))
      ensures connected ==> bench.awgReplies == Tail(old(bench.awgReplies))
      ensures !connected ==> r == None && bench.awgReplies == old(bench.awgReplies)
      ensures bench.events == old(bench.events) + (if connected then [ToAwg(c)] else [])
    {
      if connected {
        bench.Put(ToAwg(c));
        var reply := bench.TakeAwg();
        r := Some(AsResult(reply));
      } else {
        r := None;
      }
    }

    /** `reset()`: `*RST` straight to the device handle. */
    method Reset() returns (raised: Option<string>)
      modifies bench`events
      ensures raised == (if connected then None else Some(NoneAttribute("write")))
      ensures bench.events == old(bench.events) + (if connected then [ToAwg(Rst)] else [])
    {
      if connected {
        bench.Put(ToAwg(Rst));
        raised := None;
      } else {
        raised := Some(NoneAttribute("write"));
      }
    }

    method Wait() returns (r: Option<Result>)
      modifies bench`events
      ensures connected ==> r == Some(Result("[" + id + "] Sent '*WAI'", false))
      ensures !connected ==> r == None
      ensures bench.events == old(bench.events) + (if connected then [ToAwg(Wai)] else [])
    {
      r := Write(Wai);
      assert "[" + id + "] Sent '" + ScpiText(Wai, show) + "'" == "[" + id + "] Sent '*WAI'";
    }

    /** `open_channel(ch)`: `OUTPut{ch} ON`. */
    method OpenChannel(ch: nat) returns (r: Option<Result>)
      modifies bench`events
      ensures connected ==> r == Some(Result("[" + id + "] Sent 'OUTPut" + NatText(ch) + " ON'", false))
      ensures !connected ==> r == None
      ensures bench.events == old(bench.events) + (if connected then [ToAwg(OutputCmd(ch, true))] else [])
    {
      r := Write(OutputCmd(ch, true));
      OutputText(ch, true, show);
      assert "[" + id + "] Sent '" + ("OUTPut" + NatText(ch) + " ON") + "'" == "[" + id + "] Sent 'OUTPut" + NatText(ch) + " ON'";
    }

    /** `close_channel(ch)`: `OUTPut{ch} OFF`. */
    method CloseChannel(ch: nat) returns (r: Option<Result>)
      modifies bench`events
      ensures connected ==> r == Some(Result("[" + id + "] Sent 'OUTPut" + NatText(ch) + " OFF'", false))
      ensures !connected ==> r == None
      ensures bench.events == old(bench.events) + (if connected then [ToAwg(OutputCmd(ch, false))] else [])
    {
      r := Write(OutputCmd(ch, false));
      OutputText(ch, false, show);
      assert "[" + id + "] Sent '" + ("OUTPut" + NatText(ch) + " OFF") + "'" == "[" + id + "] Sent 'OUTPut" + NatText(ch) + " OFF'";
    }

    /** `set_amp(amp, ch[, offset])`. The package driver has no offset
      * parameter and always writes 0. */
    method SetAmp(amp: real, ch: nat, offset: int)
      requires driver == PackageDriver ==> offset == 0
      modifies bench`events
      ensures bench.events == old(bench.events) + (if connected then Awgs(AmpCommands(driver, ch, amp, offset)) else [])
    {
      var _ := Write(VoltCmd(ch, amp));
      if driver == PackageDriver {
        var _ := Wait();
      }
      var _ := Write(OffsetCmd(ch, offset));
      if driver == PackageDriver {
        var _ := Wait();
      }
    }

    /** `set_phase(phase, ch)`: the phase write and a `*WAI`. */
    method SetPhase(phase: real, ch: nat)
      modifies bench`events
      ensures bench.events == old(bench.events) + (if connected then Awgs([PhaseCmd(ch, phase), Wai]) else [])
    {
      var _ := Write(PhaseCmd(ch, phase));
      var _ := Wait();
    }

    /** Writes `cmds` in order; nothing without a handle. */
    method WriteAll(cmds: seq<Scpi>)
      modifies bench`events
      ensures bench.events == old(bench.events) + (if connected then Awgs(cmds) else [])
    {
      var i := 0;
      while i < |cmds|
        invariant 0 <= i <= |cmds|
        invariant bench.events == old(bench.events) + (if connected then Awgs(cmds[..i]) else [])
      {
        var _ := Write(cmds[i]);
        assert cmds[..i + 1] == cmds[..i] + [cmds[i]];
        AwgsAppend(cmds[..i], [cmds[i]]);
        i := i + 1;
      }
      assert cmds[..i] == cmds;
    }

    /** `send_arb_ch(arb, amp, sample_rate, name, channel)`: uploads `arb`
      * scaled to peak magnitude 1, selects it, sets the amplitude and asks
      * for the error queue. Without a handle the two leading writes are
      * skipped and the binary transfer raises, so nothing reaches the
      * instrument. */
    method SendArbCh(arb: seq<real>, amp: real, rate: real, name: string, ch: nat, log: Log)
      returns (raised: Option<string>, clean: bool)
      requires Peak(arb) > 0.0
      modifies bench`events, bench`awgReplies, log
      ensures !connected ==> (raised == Some(NoneAttribute("write_binary_values")) && !clean)
      ensures !connected ==> (bench.events == old(bench.events) && bench.awgReplies == old(bench.awgReplies)
        && log.lines == old(log.lines))
      ensures connected ==> (raised == None
        && bench.events == old(bench.events) + Awgs(UploadCommands(driver, ch, name, Normalize(arb), rate, amp))
        && bench.awgReplies == Tail(old(bench.awgReplies))
        && clean == UploadClean(AsResult(Head(old(bench.awgReplies), VisaTimeout)).msg)
        && log.lines == old(log.lines) + [UploadNote(driver, AsResult(Head(old(bench.awgReplies), VisaTimeout)).msg)])
    {
      if !connected {
        raised := Some(NoneAttribute("write_binary_values"));
        clean := false;
        return;
      }
      var cmds := UploadCommands(driver, ch, name, Normalize(arb), rate, amp);
      var n := |cmds| - 1;
      assert cmds == cmds[..n] + [SystErr];
      WriteAll(cmds[..n]);
      var answer := Query(SystErr);
      AwgsAppend(cmds[..n], [SystErr]);
      var error := answer.value.msg;
      clean := |error| >= 13 && error[..13] == NoErrorReply;
      if clean {
        log.lines := log.lines + [UploadOk];
      } else if driver == PackageDriver {
        log.lines := log.lines + [error];
      } else {
        log.lines := log.lines + ["Error reported: " + error];
      }
      raised := None;
    }

    /** `modulate_ampitude(freq, channel)`: direct writes to the handle, so
      * without one the first write raises. */
    method ModulateAmplitude(freq: real, ch: nat) returns (raised: Option<string>)
      modifies bench`events
      ensures raised == (if connected then None else Some(NoneAttribute("write")))
      ensures bench.events == old(bench.events) + (if connected then Awgs(ModulationCommands(ch, freq)) else [])
    {
      if !connected {
        return Some(NoneAttribute("write"));
      }
      bench.PutAll(Awgs(ModulationCommands(ch, freq)));
      raised := None;
    }

    /** `sync_channels(syncPhase, syncFunc)`: function sync first, then phase
      * sync; with neither flag nothing is written, handle or not. */
    method SyncChannels(syncPhase: bool, syncFunc: bool) returns (raised: Option<string>)
      modifies bench`events
      ensures raised == (if connected || (!syncPhase && !syncFunc) then None else Some(NoneAttribute("write")))
      ensures bench.events == old(bench.events) + (if connected then Awgs(SyncCommands(syncPhase, syncFunc)) else [])
    {
      raised := None;
      if syncFunc {
        if !connected {
          return Some(NoneAttribute("write"));
        }
        bench.Put(ToAwg(Command(Fixed("FUNC:ARB:SYNC"), NoArg)));
        bench.Put(ToAwg(Wai));
      }
      if syncPhase {
        if !connected {
          return Some(NoneAttribute("write"));
        }
        bench.Put(ToAwg(Command(Fixed("SOURce:PHAS:SYNC"), NoArg)));
        bench.Put(ToAwg(Wai));
      }
    }

    /** `combine_channels(out, feed)`. */
    method CombineChannels(out: nat, feed: nat) returns (raised: Option<string>)
      modifies bench`events
      ensures raised == (if connected then None else Some(NoneAttribute("write")))
      ensures bench.events == old(bench.events) + (if connected then Awgs(CombineCommands(out, feed)) else [])
    {
      if !connected {
        return Some(NoneAttribute("write"));
      }
      bench.Put(ToAwg(Command(Source(out, "COMBine:FEED"), ChannelName(feed))));
      bench.Put(ToAwg(Wai));
      raised := None;
    }
  }

  // ============================================================== RHK R9

  /** The controller acknowledges a setting with exactly `Done`; anything
    * else is reported as an error carrying the reply. */
  function Acknowledgement(reply: string): (r: Result)
    ensures r.msg == reply
    ensures r.err <==> reply != "Done"
  {
    Result(reply, reply != "Done")
  }

  /** The RHK R9 driver of ppspectroscopy/devices.py, on a connected socket. */
  class RhkR9 {
    const bench: Bench
    /** Python's `str` of a float, as the driver's messages print it. */
    const show: real -> string

    constructor (bench: Bench, show: real -> string)
      ensures this.bench == bench && this.show == show
    {
      this.bench := bench;
      this.show := show;
    }

    /** `set_tip_control(mode)`: sends the title-cased mode and checks the
      * acknowledgement. */
    method SetTipControl(mode: string, log: Log) returns (r: Result)
      modifies bench`events, bench`stmReplies, log
      ensures bench.events == old(bench.events) + [ToStm(TipControlMsg(Title(mode)))]
      ensures bench.stmReplies == Tail(old(bench.stmReplies))
      ensures r == Acknowledgement(Head(old(bench.stmReplies), Silence))
      ensures log.lines == old(log.lines) + [if r.err then BytesRepr(r.msg) else "STM tip control set to " + Title(mode)]
    {
      var tipMode := Title(mode);
      bench.Put(ToStm(TipControlMsg(tipMode)));
      var reply := bench.TakeStm();
      r := Acknowledgement(reply);
      if r.err {
        log.lines := log.lines + [BytesRepr(reply)];
      } else {
        log.lines := log.lines + ["STM tip control set to " + tipMode];
      }
    }

    /** `set_bias(bias)`: sends the bias and checks the acknowledgement. */
    method SetBias(bias: Arg, log: Log) returns (r: Result)
      modifies bench`events, bench`stmReplies, log
      ensures bench.events == old(bench.events) + [ToStm(SetBiasMsg(bias))]
      ensures bench.stmReplies == Tail(old(bench.stmReplies))
      ensures r == Acknowledgement(Head(old(bench.stmReplies), Silence))
      ensures log.lines == old(log.lines)
        + [if r.err then BytesRepr(r.msg) else "STM bias set to " + ArgText(bias, show) + "."]
    {
      bench.Put(ToStm(SetBiasMsg(bias)));
      var reply := bench.TakeStm();
      r := Acknowledgement(reply);
      if r.err {
        log.lines := log.lines + [BytesRepr(reply)];
      } else {
        log.lines := log.lines + ["STM bias set to " + ArgText(bias, show) + "."];
      }
    }

    /** `get_bias()`: asks for the bias and parses the answer; if that is
      * not a number it asks once more and parses again, outside the `try`,
      * so a second answer that is not a number raises ValueError. */
    method GetBias() returns (bias: Option<real>, raised: Option<string>)
      modifies bench`events, bench`stmReplies
      ensures bias == ReadBias(old(bench.stmReplies))
      ensures raised == BiasError(old(bench.stmReplies))
      ensures bench.events == old(bench.events) + Repeat([ToStm(GetBiasMsg)], BiasPolls(old(bench.stmReplies)))
      ensures bench.stmReplies == Skip(old(bench.stmReplies), BiasPolls(old(bench.stmReplies)))
    {
      ghost var s := bench.stmReplies;
      SkipZero(s);
      SkipStep(s, 0, Silence);
      SkipStep(s, 1, Silence);
      assert Repeat([ToStm(GetBiasMsg)], 1) == [ToStm(GetBiasMsg)];
      bench.Put(ToStm(GetBiasMsg));
      var reply := bench.TakeStm();
      bias := ParseFloat(reply);
      if bias.None? {
        bench.Put(ToStm(GetBiasMsg));
        reply := bench.TakeStm();
        bias := ParseFloat(reply);
        assert Repeat([ToStm(GetBiasMsg)], 2) == [ToStm(GetBiasMsg)] + [ToStm(GetBiasMsg)];
        if bias.None? {
          raised := Some(ValueErrorText(reply));
          return;
        }
      }
      raised := None;
    }
  }

  /** How many times `get_bias` asks, for the controller's replies `script`:
    * once, or twice when the first answer is not a number. */
  function BiasPolls(script: seq<string>): (n: nat)
    ensures 1 <= n <= 2
    ensures n == 1 <==> ParseFloat(ReplyAt(script, 0, Silence)).Some?
  {
    if ParseFloat(Head(script, Silence)).Some? then 1 else 2
  }

  /** What `get_bias` returns for the controller's replies `script`. */
  function ReadBias(script: seq<string>): Option<real> {
    var first := ParseFloat(Head(script, Silence));
    if first.Some? then first else ParseFloat(Head(Tail(script), Silence))
  }

  /** What `get_bias` raises: the ValueError of the second `float`, when
    * neither answer is a number. */
  function BiasError(script: seq<string>): Option<string> {
    if ReadBias(script).Some? then None else Some(ValueErrorText(Head(Tail(script), Silence)))
  }

  /** `get_bias` returns the first answer when it is a number and otherwise
    * the parse of the second; it raises exactly when both fail, with the
    * ValueError that quotes the second answer, and returns a number
    * whenever it does not raise. */
  lemma ReadBiasAnswers(script: seq<string>)
    ensures ParseFloat(ReplyAt(script, 0, Silence)).Some? ==> ReadBias(script) == ParseFloat(ReplyAt(script, 0, Silence))
    ensures ParseFloat(ReplyAt(script, 0, Silence)).None? ==> ReadBias(script) == ParseFloat(ReplyAt(script, 1, Silence))
    ensures BiasError(script).Some? <==>
      (ParseFloat(ReplyAt(script, 0, Silence)).None? && ParseFloat(ReplyAt(script, 1, Silence)).None?)
    ensures BiasError(script).Some? ==> BiasError(script) == Some(ValueErrorText(ReplyAt(script, 1, Silence)))
    ensures BiasError(script).None? <==> ReadBias(script).Some?
  {
    SkipZero(script);
    SkipStep(script, 0, Silence);
    SkipStep(script, 1, Silence);
  }

  // =========================================================== properties

  /** Peak normalisation before an upload puts every sample in [-1, 1] with
    * peak magnitude 1, and a synthesized pulse, padded as `create_arb` pads
    * it, goes up unchanged. */
  lemma UploadedShape(p: Pulse)
    ensures Peak(CreateArbAsWritten(p)) > 0.0
    ensures Normalize(CreateArbAsWritten(p)) == CreateArbAsWritten(p)
    ensures forall i :: 0 <= i < |CreateArbAsWritten(p)| ==> -1.0 <= Normalize(CreateArbAsWritten(p))[i] <= 1.0
  {
    ArbIsNormalized(p);
    NormalizedUnit(CreateArbAsWritten(p));
  }

  /** The exact no-error answer is clean; a timed-out query never is. */
  lemma CleanAnswers(suffix: string)
    ensures UploadClean(NoErrorReply + suffix)
    ensures !UploadClean(AsResult(VisaTimeout).msg)
  {
    assert (NoErrorReply + suffix)[..|NoErrorReply|] == NoErrorReply;
    assert AsResult(VisaTimeout).msg == VisaTimeout.error;
    assert VisaTimeout.error[0] == "VisaIOError("[0];
  }
}
