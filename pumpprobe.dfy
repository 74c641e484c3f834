/** The packaged pump-probe runner of pyppspec/pump_probe.py: the experiment
  * records, the header of the saved data, and `PumpProbe.run`, which
  * uploads (or only re-levels) the pulses, freezes the tip, lowers the
  * bias, sweeps one AWG setting while reading the lock-in, and then puts
  * the bias back and releases the tip. */
module PumpProbe {
  import opened Results
  import opened Text
  import opened Numeric
  import opened Waveform
  import opened Transport
  import opened Devices

  /** The AWG channel of each pulse. */
  datatype Channel = Probe | Pump
  {
    function Number(): nat {
      match this
      case Probe => 1
      case Pump => 2
    }

    function Name(): string {
      match this
      case Probe => "PROBE"
      case Pump => "PUMP"
    }
  }

  datatype ProcedureType = TimeDelay | Amplitude | Image

  /** The AWG method a procedure sweeps: `set_phase` or `set_amp`. */
  datatype SweepCall = SetPhaseCall | SetAmpCall

  datatype Experiment = Experiment(
    pump: Pulse, probe: Pulse,
    domain: (real, real), samples: nat,
    fixedTimeDelay: Option<real>,
    stmCoords: Vector2<real>,
    /** The text of the run's timestamp. */
    date: string)

  datatype Procedure = Procedure(
    procType: ProcedureType, call: SweepCall, channel: Channel,
    experiments: seq<Experiment>, conversionFactor: real)

  datatype Config = Config(
    stmModel: string, lockinIp: string, lockinPort: int, lockinFreq: real,
    awgId: string, sampleRate: real, savePath: string)

  // ------------------------------------------------------ axis and header

  /** `generate_domain_title`. */
  function DomainTitle(p: Procedure): string {
    match p.procType
    case TimeDelay => "Time delay, $\\Delta t$ (ns)"
    case Amplitude => Title(p.channel.Name()) + " amplitude (V)"
    case Image => ""
  }

  /** An amplitude sweep is labelled with the swept pulse in title case. */
  lemma AmplitudeTitles(p: Procedure)
    requires p.procType == Amplitude
    ensures p.channel == Pump ==> DomainTitle(p) == "Pump amplitude (V)"
    ensures p.channel == Probe ==> DomainTitle(p) == "Probe amplitude (V)"
  {
    ChannelTitles();
  }

  lemma ChannelTitles()
    ensures Title("PUMP") == "Pump" && Title("PROBE") == "Probe"
  {
    var pump := Title("PUMP");
    assert pump[0] == 'P' && pump[1] == 'u' && pump[2] == 'm' && pump[3] == 'p';
    var probe := Title("PROBE");
    assert probe[0] == 'P' && probe[1] == 'r' && probe[2] == 'o' && probe[3] == 'b' && probe[4] == 'e';
  }

  /** A key/value row of the data file's header. */
  datatype Row = Row(key: string, value: string)

  predicate IsSection(key: string) {
    |key| >= 2 && key[0] == '[' && key[|key| - 1] == ']'
  }

  function OptionText(o: Option<real>, show: real -> string): string {
    match o
    case None => "None"
    case Some(v) => show(v)
  }

  /** `generate_csv_head`; `show` is Python's `str` of a float. */
  function CsvHead(e: Experiment, show: real -> string): (rows: seq<Row>)
    ensures |rows| == 17
  {
    [ Row("[Date]", ""), Row(e.date, ""),
      Row("[Position]", ""), Row("x", show(e.stmCoords.x)), Row("y", show(e.stmCoords.y)),
      Row("[Pump]", ""), Row("amp", show(e.pump.amp)), Row("width", show(e.pump.width)), Row("edge", show(e.pump.edge)),
      Row("[Probe]", ""), Row("amp", show(e.probe.amp)), Row("width", show(e.probe.width)), Row("edge", show(e.probe.edge)),
      Row("[Settings]", ""),
      Row("domain", "(" + show(e.domain.0) + ", " + show(e.domain.1) + ")"),
      Row("samples", NatText(e.samples)),
      Row("fixed time delay", OptionText(e.fixedTimeDelay, show)) ]
  }

  /** Reads a sectioned header back from row `i` on: the value of the first
    * row keyed `key` inside section `section`, where `current` is the section
    * row `i` is in. */
  function FieldAt(rows: seq<Row>, i: nat, current: string, section: string, key: string): Option<string>
    decreases |rows| - i
  {
    if i >= |rows| then None
    else if IsSection(rows[i].key) then FieldAt(rows, i + 1, rows[i].key, section, key)
    else if current == section && rows[i].key == key then Some(rows[i].value)
    else FieldAt(rows, i + 1, current, section, key)
  }

  function Field(rows: seq<Row>, section: string, key: string): Option<string> {
    FieldAt(rows, 0, "", section, key)
  }

  /** Rows before the header of `section` are passed over. */
  lemma {:induction false} EnterSection(rows: seq<Row>, i: nat, current: string, section: string, key: string, s: nat)
    requires i <= s < |rows| && rows[s].key == section && IsSection(section)
    requires current != section && forall k :: i <= k < s ==> rows[k].key != section
    ensures FieldAt(rows, i, current, section, key) == FieldAt(rows, s + 1, section, section, key)
    decreases s - i
  {
    if i < s {
      var next := if IsSection(rows[i].key) then rows[i].key else current;
      EnterSection(rows, i + 1, next, section, key, s);
    }
  }

  /** Inside the section, the first row with the key is the one found. */
  lemma {:induction false} FindInSection(rows: seq<Row>, i: nat, section: string, key: string, j: nat)
    requires i <= j < |rows| && rows[j].key == key && !IsSection(key)
    requires forall k :: i <= k < j ==> !IsSection(rows[k].key) && rows[k].key != key
    ensures FieldAt(rows, i, section, section, key) == Some(rows[j].value)
    decreases j - i
  {
    if i < j {
      FindInSection(rows, i + 1, section, key, j);
    }
  }

  /** The header of each section sits at a fixed row. */
  lemma SectionRows(e: Experiment, show: real -> string)
    requires !IsSection(e.date)
    ensures var rows := CsvHead(e, show);
      IsSection("[Position]") && IsSection("[Pump]") && IsSection("[Probe]") && IsSection("[Settings]")
      && (forall k :: 0 <= k < 2 ==> rows[k].key != "[Position]")
      && (forall k :: 0 <= k < 5 ==> rows[k].key != "[Pump]")
      && (forall k :: 0 <= k < 9 ==> rows[k].key != "[Probe]")
      && (forall k :: 0 <= k < 13 ==> rows[k].key != "[Settings]")
      && (forall k :: 0 <= k < 17 ==> (IsSection(rows[k].key) <==> k in {0, 2, 5, 9, 13}))
  {
  }

  /** A key found after its section's header, with no other section header
    * and no earlier row of that key in between, is what `Field` reads. */
  lemma ReadsAt(rows: seq<Row>, section: string, s: nat, key: string, j: nat)
    requires s < j < |rows| && rows[s].key == section && IsSection(section)
    requires forall k :: 0 <= k < s ==> rows[k].key != section
    requires rows[j].key == key && !IsSection(key)
    requires forall k :: s < k < j ==> !IsSection(rows[k].key) && rows[k].key != key
    ensures Field(rows, section, key) == Some(rows[j].value)
  {
    EnterSection(rows, 0, "", section, key, s);
    FindInSection(rows, s + 1, section, key, j);
  }

  lemma PositionReadsBack(e: Experiment, show: real -> string)
    requires !IsSection(e.date)
    ensures Field(CsvHead(e, show), "[Position]", "x") == Some(show(e.stmCoords.x))
    ensures Field(CsvHead(e, show), "[Position]", "y") == Some(show(e.stmCoords.y))
  {
    var rows := CsvHead(e, show);
    SectionRows(e, show);
    ReadsAt(rows, "[Position]", 2, "x", 3);
    ReadsAt(rows, "[Position]", 2, "y", 4);
  }

  lemma PumpReadsBack(e: Experiment, show: real -> string)
    requires !IsSection(e.date)
    ensures Field(CsvHead(e, show), "[Pump]", "amp") == Some(show(e.pump.amp))
    ensures Field(CsvHead(e, show), "[Pump]", "width") == Some(show(e.pump.width))
    ensures Field(CsvHead(e, show), "[Pump]", "edge") == Some(show(e.pump.edge))
  {
    var rows := CsvHead(e, show);
    SectionRows(e, show);
    ReadsAt(rows, "[Pump]", 5, "amp", 6);
    ReadsAt(rows, "[Pump]", 5, "width", 7);
    ReadsAt(rows, "[Pump]", 5, "edge", 8);
  }

  lemma ProbeReadsBack(e: Experiment, show: real -> string)
    requires !IsSection(e.date)
    ensures Field(CsvHead(e, show), "[Probe]", "amp") == Some(show(e.probe.amp))
    ensures Field(CsvHead(e, show), "[Probe]", "width") == Some(show(e.probe.width))
    ensures Field(CsvHead(e, show), "[Probe]", "edge") == Some(show(e.probe.edge))
  {
    var rows := CsvHead(e, show);
    SectionRows(e, show);
    ReadsAt(rows, "[Probe]", 9, "amp", 10);
    ReadsAt(rows, "[Probe]", 9, "width", 11);
    ReadsAt(rows, "[Probe]", 9, "edge", 12);
  }

  lemma SettingsReadsBack(e: Experiment, show: real -> string)
    requires !IsSection(e.date)
    ensures Field(CsvHead(e, show), "[Settings]", "samples") == Some(NatText(e.samples))
    ensures Field(CsvHead(e, show), "[Settings]", "fixed time delay") == Some(OptionText(e.fixedTimeDelay, show))
  {
    var rows := CsvHead(e, show);
    SectionRows(e, show);
    ReadsAt(rows, "[Settings]", 13, "samples", 15);
    ReadsAt(rows, "[Settings]", 13, "fixed time delay", 16);
  }

  /** Every setting of an experiment can be read back from its header by
    * section and key, although the pulse keys repeat across sections. */
  lemma CsvHeadReadsBack(e: Experiment, show: real -> string)
    requires !IsSection(e.date)
    ensures Field(CsvHead(e, show), "[Position]", "x") == Some(show(e.stmCoords.x))
    ensures Field(CsvHead(e, show), "[Position]", "y") == Some(show(e.stmCoords.y))
    ensures Field(CsvHead(e, show), "[Pump]", "amp") == Some(show(e.pump.amp))
    ensures Field(CsvHead(e, show), "[Pump]", "width") == Some(show(e.pump.width))
    ensures Field(CsvHead(e, show), "[Pump]", "edge") == Some(show(e.pump.edge))
    ensures Field(CsvHead(e, show), "[Probe]", "amp") == Some(show(e.probe.amp))
    ensures Field(CsvHead(e, show), "[Probe]", "width") == Some(show(e.probe.width))
    ensures Field(CsvHead(e, show), "[Probe]", "edge") == Some(show(e.probe.edge))
    ensures Field(CsvHead(e, show), "[Settings]", "samples") == Some(NatText(e.samples))
    ensures Field(CsvHead(e, show), "[Settings]", "fixed time delay") == Some(OptionText(e.fixedTimeDelay, show))
  {
    PositionReadsBack(e, show);
    PumpReadsBack(e, show);
    ProbeReadsBack(e, show);
    SettingsReadsBack(e, show);
  }

  // --------------------------------------------------------------- reading

  /** One lock-in reading: a number, or the message of a failed read. */
  datatype Reading = Value(v: real) | Failed(msg: string)

  /** A reply turned into a reading, or the exception that turning it
    * raises. */
  datatype Parsed = Read(reading: Reading) | Unreadable(error: string)

  const IndexErrorText: string := "IndexError('list index out of range')"

  /** `float(y.split()[0])` of a received reply; a failed receive keeps its
    * message. */
  function Interpret(y: Result): Parsed {
    if y.err then Read(Failed(y.msg))
    else match FirstToken(y.msg)
      case None => Unreadable(IndexErrorText)
      case Some(token) =>
        match ParseFloat(token)
        case None => Unreadable(ValueErrorText(token))
        case Some(v) => Read(Value(v))
  }

  /** A reply that starts with a number followed by white space (or nothing)
    * reads as that number. */
  lemma InterpretNumber(n: nat, rest: string)
    requires rest == [] || IsSpace(rest[0])
    ensures Interpret(Result(NatText(n) + rest, false)) == Read(Value(n as real))
  {
    var digits := NatText(n);
    assert forall i :: 0 <= i < |digits| ==> !IsSpace(digits[i]) by {
      forall i | 0 <= i < |digits| ensures !IsSpace(digits[i]) {
        assert IsDigit(digits[i]);
      }
    }
    FirstTokenOf(digits, rest);
    ParseNatText(n);
  }

  /** A blank reply raises the IndexError of `split()[0]`; a failed receive
    * is recorded, not raised. */
  lemma InterpretEdgeCases(blank: string, error: string)
    requires forall i :: 0 <= i < |blank| ==> IsSpace(blank[i])
    ensures Interpret(Result(blank, false)) == Unreadable(IndexErrorText)
    ensures Interpret(Result(error, true)) == Read(Failed(error))
  {
    FirstTokenSpec(blank);
  }

  /** A reply of the separator `\x1c` is blank to `str.split()`, so
    * reading it raises the IndexError rather than a float ValueError. */
  lemma SeparatorReplyIsBlank()
    ensures Interpret(Result([28 as char], false)) == Unreadable(IndexErrorText)
  {
    InterpretEdgeCases([28 as char], "");
  }

  /** What `expected` logs for a reading whose receive failed. */
  const XLost: string := "X value not recieved from Lockin"

  /** The lines a sweep logs: one `X value not recieved` for each reading
    * whose receive failed, in order. */
  function LostNotes(data: seq<Reading>): seq<string> {
    LostAmong(data, |data|)
  }

  /** The same lines for the first `n` readings. */
  function LostAmong(data: seq<Reading>, n: nat): seq<string>
    requires n <= |data|
  {
    if n == 0 then [] else LostAmong(data, n - 1) + (if data[n - 1].Failed? then [XLost] else [])
  }

  /** Readings appended after the first `n` do not change their lines. */
  lemma {:induction false} LostAmongPrefix(a: seq<Reading>, b: seq<Reading>, n: nat)
    requires n <= |a|
    ensures LostAmong(a + b, n) == LostAmong(a, n)
  {
    if n > 0 {
      LostAmongPrefix(a, b, n - 1);
      assert (a + b)[n - 1] == a[n - 1];
    }
  }

  /** The lines of `a` followed by the first `k` readings of `b`. */
  lemma {:induction false} LostAmongSuffix(a: seq<Reading>, b: seq<Reading>, k: nat)
    requires k <= |b|
    ensures LostAmong(a + b, |a| + k) == LostAmong(a, |a|) + LostAmong(b, k)
  {
    if k == 0 {
      LostAmongPrefix(a, b, |a|);
    } else {
      LostAmongSuffix(a, b, k - 1);
      assert (a + b)[|a| + k - 1] == b[k - 1];
    }
  }

  /** One more reading adds the note exactly when its receive failed. */
  lemma LostNotesSnoc(data: seq<Reading>, y: Result, r: Reading)
    requires Interpret(y) == Read(r)
    ensures LostNotes(data + [r]) == LostNotes(data) + (if y.err then [XLost] else [])
  {
    LostAmongPrefix(data, [r], |data|);
    assert (data + [r])[|data|] == r;
  }

  /** A reply that raises when parsed came through. */
  lemma UnreadableReceived(y: Result)
    requires Interpret(y).Unreadable?
    ensures !y.err
  {
  }

  /** The lines of consecutive readings concatenate. */
  lemma LostNotesJoin(a: seq<Reading>, b: seq<Reading>)
    ensures LostNotes(a + b) == LostNotes(a) + LostNotes(b)
  {
    LostAmongSuffix(a, b, |b|);
  }

  /** One line per failed receive: every line is the lost-reply note, there
    * is one for each failed reading at most, and none when every receive
    * came through. */
  lemma LostNotesCount(data: seq<Reading>)
    ensures |LostNotes(data)| <= |data|
    ensures forall k :: 0 <= k < |LostNotes(data)| ==> LostNotes(data)[k] == XLost
    ensures (forall k :: 0 <= k < |data| ==> data[k].Value?) ==> LostNotes(data) == []
  {
    LostAmongCount(data, |data|);
  }

  lemma {:induction false} LostAmongCount(data: seq<Reading>, n: nat)
    requires n <= |data|
    ensures |LostAmong(data, n)| <= n
    ensures forall k :: 0 <= k < |LostAmong(data, n)| ==> LostAmong(data, n)[k] == XLost
    ensures (forall k :: 0 <= k < n ==> data[k].Value?) ==> LostAmong(data, n) == []
  {
    if n > 0 {
      LostAmongCount(data, n - 1);
    }
  }

  /** The readings are the replies of `script`, parsed in order. */
  predicate ReadsFrom(script: seq<Reply>, data: seq<Reading>) {
    forall k {:trigger ReplyAt(script, k, Data(Silence))} :: 0 <= k < |data| ==> Interpret(AsResult(ReplyAt(script, k, Data(Silence)))) == Read(data[k])
  }

  /** One more reading, taken from the next reply. */
  lemma ReadsSnoc(script: seq<Reply>, data: seq<Reading>, r: Reading)
    requires ReadsFrom(script, data)
    requires Interpret(AsResult(ReplyAt(script, |data|, Data(Silence)))) == Read(r)
    ensures ReadsFrom(script, data + [r])
  {
    forall k | 0 <= k < |data| + 1
      ensures Interpret(AsResult(ReplyAt(script, k, Data(Silence)))) == Read((data + [r])[k])
    {
      if k < |data| {
        assert (data + [r])[k] == data[k];
      }
    }
  }

  /** Readings of the replies left after `a` was read follow those of `a`. */
  lemma ReadsJoin(script: seq<Reply>, a: seq<Reading>, b: seq<Reading>)
    requires ReadsFrom(script, a) && ReadsFrom(Skip(script, |a|), b)
    ensures ReadsFrom(script, a + b)
  {
    forall k | 0 <= k < |a| + |b|
      ensures Interpret(AsResult(ReplyAt(script, k, Data(Silence)))) == Read((a + b)[k])
    {
      if k < |a| {
        assert (a + b)[k] == a[k];
      } else {
        assert (a + b)[k] == b[k - |a|];
        SkipReplyAt(script, |a|, k - |a|, Data(Silence));
      }
    }
  }

  /** The exception of the first of the next `n` replies of `script` that
    * does not read, or None when all `n` read. */
  function FirstUnreadable(script: seq<Reply>, n: nat): Option<string>
    decreases n
  {
    if n == 0 then None
    else match Interpret(AsResult(Head(script, Data(Silence))))
      case Unreadable(error) => Some(error)
      case Read(_) => FirstUnreadable(Tail(script), n - 1)
  }

  /** `FirstUnreadable` against the replies themselves: None exactly when
    * each of the `n` reads, and otherwise the exception of a reply all of
    * whose predecessors read. */
  lemma {:induction false} FirstUnreadableSpec(script: seq<Reply>, n: nat)
    ensures FirstUnreadable(script, n).None? <==>
      forall k {:trigger ReplyAt(script, k, Data(Silence))} :: 0 <= k < n ==> Interpret(AsResult(ReplyAt(script, k, Data(Silence)))).Read?
    ensures FirstUnreadable(script, n).Some? ==>
      exists k {:trigger ReplyAt(script, k, Data(Silence))} :: (0 <= k < n
        && Interpret(AsResult(ReplyAt(script, k, Data(Silence)))) == Unreadable(FirstUnreadable(script, n).value)
        && forall j {:trigger ReplyAt(script, j, Data(Silence))} :: 0 <= j < k ==> Interpret(AsResult(ReplyAt(script, j, Data(Silence)))).Read?)
    decreases n
  {
    if n > 0 {
      assert Head(script, Data(Silence)) == ReplyAt(script, 0, Data(Silence));
      FirstUnreadableSpec(Tail(script), n - 1);
      forall k | 0 <= k < n - 1
        ensures ReplyAt(Tail(script), k, Data(Silence)) == ReplyAt(script, k + 1, Data(Silence))
      {
        ReplyAtTail(script, k, Data(Silence));
      }
      var r := FirstUnreadable(script, n);
      if Interpret(AsResult(ReplyAt(script, 0, Data(Silence)))).Read? {
        forall k | 0 <= k < n && r.None?
          ensures Interpret(AsResult(ReplyAt(script, k, Data(Silence)))).Read?
        {
          if k > 0 {
            assert ReplyAt(Tail(script), k - 1, Data(Silence)) == ReplyAt(script, k, Data(Silence));
          }
        }
      }
      if Interpret(AsResult(ReplyAt(script, 0, Data(Silence)))).Read? && r.Some? {
        var k :| 0 <= k < n - 1
          && Interpret(AsResult(ReplyAt(Tail(script), k, Data(Silence)))) == Unreadable(r.value)
          && forall j {:trigger ReplyAt(Tail(script), j, Data(Silence))} :: 0 <= j < k ==> Interpret(AsResult(ReplyAt(Tail(script), j, Data(Silence)))).Read?;
        forall j | 0 <= j < k + 1
          ensures Interpret(AsResult(ReplyAt(script, j, Data(Silence)))).Read?
        {
          if j > 0 {
            assert ReplyAt(Tail(script), j - 1, Data(Silence)) == ReplyAt(script, j, Data(Silence));
          }
        }
        assert Interpret(AsResult(ReplyAt(script, k + 1, Data(Silence)))) == Unreadable(r.value);
      }
    }
  }

  /** A sweep that read `data` and then stopped at an unreadable reply
    * stopped at the first one; one that read `n` or more raised at none
    * of the first `n`. */
  lemma ReadsUntilUnreadable(script: seq<Reply>, data: seq<Reading>, n: nat)
    requires ReadsFrom(script, data)
    ensures n <= |data| ==> FirstUnreadable(script, n).None?
    ensures |data| < n && Interpret(AsResult(ReplyAt(script, |data|, Data(Silence)))).Unreadable? ==>
      FirstUnreadable(script, n) == Some(Interpret(AsResult(ReplyAt(script, |data|, Data(Silence)))).error)
  {
    FirstUnreadableSpec(script, n);
    if n <= |data| {
      forall k | 0 <= k < n
        ensures Interpret(AsResult(ReplyAt(script, k, Data(Silence)))).Read?
      {
        assert Interpret(AsResult(ReplyAt(script, k, Data(Silence)))) == Read(data[k]);
      }
    } else if Interpret(AsResult(ReplyAt(script, |data|, Data(Silence)))).Unreadable? {
      var r := FirstUnreadable(script, n);
      var k :| 0 <= k < n
        && Interpret(AsResult(ReplyAt(script, k, Data(Silence)))) == Unreadable(r.value)
        && forall j {:trigger ReplyAt(script, j, Data(Silence))} :: 0 <= j < k ==> Interpret(AsResult(ReplyAt(script, j, Data(Silence)))).Read?;
      assert k == |data|;
    }
  }


  /** The samples `spectra` passes of `samples` values take. */
  function SampleCount(spectra: nat, samples: nat): nat {
    spectra * samples
  }

  /** A sample of pass `s + 1`, after `s` full passes of `v` samples, is
    * one of the first `spectra · v` when there are `spectra > s` passes. */
  lemma PassWithin(s: nat, spectra: nat, v: nat, done: nat, k: nat)
    requires s < spectra && done == s * v && k < done + v
    ensures k < SampleCount(spectra, v)
  {
    var more := spectra - (s + 1);
    assert spectra * v == s * v + v + more * v;
  }

  /** What `switch on` raises: the AttributeError of `.report` on the
    * missing AWG's `None`, or of `.expected` on the missing lock-in's. */
  function SwitchOnError(awgUp: bool, lockinUp: bool): Option<string> {
    if !awgUp then Some(NoneAttribute("report"))
    else if !lockinUp then Some(NoneAttribute("expected"))
    else None
  }

  /** The exception the sweep phase of `run` raises on the lock-in replies
    * `lockin` with `n` samples, if any: an instrument's missing handle, or
    * else the first sample reply after the buffering one that does not
    * read. */
  function SweepError(awgUp: bool, lockinUp: bool, lockin: seq<Reply>, n: nat): Option<string> {
    if SwitchOnError(awgUp, lockinUp).Some? then SwitchOnError(awgUp, lockinUp)
    else FirstUnreadable(Tail(lockin), n)
  }

  // ------------------------------------------------------------ the trace

  /** Python's `xs[idx]` on a list of `n` items: a negative index counts
    * from the end, and one outside `-n .. n - 1` is an IndexError. */
  function PyIndex(n: nat, idx: int): (k: Option<nat>)
    ensures k.Some? <==> -(n as int) <= idx < n
    ensures k.Some? ==> k.value < n && (k.value == idx || k.value == n + idx)
  {
    if 0 <= idx < n then Some(idx) else if -(n as int) <= idx < 0 then Some((n + idx) as nat) else None
  }

  const BiasMin: real := 0.01

  /** The argument `set_bias` formats: a number, or `None`. */
  function ArgOf(b: Option<real>): Arg {
    match b
    case Some(v) => Num(v)
    case None => NoneValue
  }

  /** Python truthiness of `fixed_time_delay`: set and non-zero. */
  predicate Truthy(d: Option<real>) { d.Some? && d.value != 0.0 }

  function SweepValues(e: Experiment): seq<real> {
    Linspace(e.domain.0, e.domain.1, e.samples)
  }

  function Scale(s: seq<real>, c: real): (t: seq<real>)
    ensures |t| == |s| && forall i :: 0 <= i < |s| ==> t[i] == s[i] * c
  {
    seq(|s|, i requires 0 <= i < |s| => s[i] * c)
  }

  /** What the swept AWG method sends for one value. */
  function CallCommands(call: SweepCall, ch: nat, v: real): seq<Scpi> {
    match call
    case SetPhaseCall => [PhaseCmd(ch, v), Wai]
    case SetAmpCall => AmpCommands(PackageDriver, ch, v, 0)
  }

  /** One sample: the AWG setting, then the request for `X.`. */
  function StepEvents(call: SweepCall, ch: nat, v: real): seq<Event> {
    Awgs(CallCommands(call, ch, v)) + [ToLockIn("X.")]
  }

  /** One pass over the sweep values. */
  function SweepEvents(call: SweepCall, ch: nat, vs: seq<real>): seq<Event>
    decreases |vs|
  {
    if vs == [] then [] else SweepEvents(call, ch, vs[..|vs| - 1]) + StepEvents(call, ch, vs[|vs| - 1])
  }

  /** Scaling a sequence one value longer adds that value, scaled. */
  lemma ScaleSnoc(vs: seq<real>, i: nat, c: real)
    requires i < |vs|
    ensures Scale(vs[..i + 1], c) == Scale(vs[..i], c) + [vs[i] * c]
  {
    var a, b := Scale(vs[..i + 1], c), Scale(vs[..i], c) + [vs[i] * c];
    forall k | 0 <= k < |a|
      ensures a[k] == b[k]
    {
      if k < i {
        assert vs[..i + 1][k] == vs[..i][k];
      }
    }
  }

  /** Nothing in `es` goes to the STM. */
  predicate Quiet(es: seq<Event>) {
    forall k :: 0 <= k < |es| ==> !es[k].ToStm?
  }

  lemma QuietAppend(a: seq<Event>, b: seq<Event>)
    requires Quiet(a) && Quiet(b)
    ensures Quiet(a + b)
  {
    forall k | 0 <= k < |a + b|
      ensures !(a + b)[k].ToStm?
    {
      if k >= |a| {
        assert (a + b)[k] == b[k - |a|];
      }
    }
  }

  lemma AwgsQuiet(cmds: seq<Scpi>)
    ensures Quiet(Awgs(cmds))
  {
  }

  lemma LockInQuiet(cmds: seq<string>)
    ensures Quiet(ToLockInAll(cmds))
  {
  }

  /** Nothing sent to the STM releases the tip. */
  lemma QuietKeepsTip(es: seq<Event>)
    requires Quiet(es)
    ensures KeepsTip(es)
  {
  }

  /** Resetting both instruments and setting up the lock-in. */
  const ResetEvents: seq<Event> := [ToAwg(Rst), ToLockIn("*CLS")] + ToLockInAll(DefaultCommands)

  /** A sample talks only to the AWG and the lock-in. */
  lemma StepQuiet(call: SweepCall, ch: nat, v: real)
    ensures Quiet(StepEvents(call, ch, v))
  {
    QuietAppend(Awgs(CallCommands(call, ch, v)), [ToLockIn("X.")]);
  }

  /** So does a whole pass. */
  lemma {:induction false} SweepQuiet(call: SweepCall, ch: nat, vs: seq<real>)
    ensures Quiet(SweepEvents(call, ch, vs))
    decreases |vs|
  {
    if vs != [] {
      SweepQuiet(call, ch, vs[..|vs| - 1]);
      StepQuiet(call, ch, vs[|vs| - 1]);
      QuietAppend(SweepEvents(call, ch, vs[..|vs| - 1]), StepEvents(call, ch, vs[|vs| - 1]));
    }
  }

  lemma {:induction false} RepeatQuiet(es: seq<Event>, n: nat)
    requires Quiet(es)
    ensures Quiet(Repeat(es, n))
  {
    if n > 0 {
      RepeatQuiet(es, n - 1);
      QuietAppend(Repeat(es, n - 1), es);
    }
  }

  /** A pass cut short after `n` samples by the reply to sample `n`. */
  lemma PartialQuiet(call: SweepCall, ch: nat, values: seq<real>, n: nat)
    requires n < |values|
    ensures Quiet(SweepEvents(call, ch, values[..n]) + StepEvents(call, ch, values[n]))
  {
    SweepQuiet(call, ch, values[..n]);
    StepQuiet(call, ch, values[n]);
    QuietAppend(SweepEvents(call, ch, values[..n]), StepEvents(call, ch, values[n]));
  }

  /** How many `set_bias` calls `while(result.err)` makes on the
    * controller's replies `s`: it stops at the first `Done`, or when the
    * replies run out before one comes. */
  function SetsUntilDone(s: seq<string>): (n: nat)
    ensures n >= 1 && (n == 1 || n <= |s|)
  {
    SetsFrom(s, 0)
  }

  /** The same count for a loop whose first call gets reply `i`. */
  function SetsFrom(s: seq<string>, i: nat): (n: nat)
    ensures n >= 1 && (n == 1 || i + n <= |s|)
    decreases |s| - i
  {
    if i + 1 >= |s| || s[i] == "Done" then 1 else 1 + SetsFrom(s, i + 1)
  }

  /** From reply `i` on, the count stops at the first `Done` when there is
    * one, and uses up every reply (at least one call) when there is none. */
  lemma {:induction false} FirstDoneFrom(s: seq<string>, i: nat)
    requires i <= |s|
    ensures var n := SetsFrom(s, i);
      (exists k :: i <= k < |s| && s[k] == "Done") ==>
        (i + n <= |s| && s[i + n - 1] == "Done" && forall j :: i <= j < i + n - 1 ==> s[j] != "Done")
    ensures (forall k :: i <= k < |s| ==> s[k] != "Done") ==> SetsFrom(s, i) == (if i + 1 >= |s| then 1 else |s| - i)
    decreases |s| - i
  {
    if i + 1 < |s| && s[i] != "Done" {
      FirstDoneFrom(s, i + 1);
    }
  }

  /** The count stops at the first `Done` when there is one, and uses up
    * every reply (at least one call) when there is none. */
  lemma FirstDone(s: seq<string>)
    ensures var n := SetsUntilDone(s);
      (ReplyAt(s, n - 1, Silence) == "Done" <==> "Done" in s)
      && forall j :: 0 <= j < n - 1 ==> ReplyAt(s, j, Silence) != "Done"
    ensures "Done" !in s ==> SetsUntilDone(s) == (if s == [] then 1 else |s|)
  {
    FirstDoneFrom(s, 0);
  }

  /** Where the `set_bias` loop stops, given what it saw there: the count
    * is complete, and the loop hung exactly when no reply is `Done`. */
  lemma SetsStop(s: seq<string>, sets: nat, hung: bool)
    requires sets >= 1 && (sets == 1 || sets <= |s|)
    requires SetsUntilDone(s) == sets - 1 + SetsFrom(s, sets - 1)
    requires hung ==> Skip(s, sets) == [] && ReplyAt(s, sets - 1, Silence) != "Done"
    requires !hung ==> ReplyAt(s, sets - 1, Silence) == "Done"
    ensures sets == SetsUntilDone(s) && (hung <==> "Done" !in s)
    ensures forall j :: 0 <= j < sets - 1 ==> ReplyAt(s, j, Silence) != "Done"
  {
    FirstDone(s);
  }

  /** A reply `Done` at `k` with none from `i` on before it: the loop that
    * starts at `i` stops there. */
  lemma {:induction false} UntilFirstDoneFrom(s: seq<string>, i: nat, k: nat)
    requires i <= k < |s| && s[k] == "Done"
    requires forall j :: i <= j < k ==> s[j] != "Done"
    ensures SetsFrom(s, i) == k - i + 1
    decreases k - i
  {
    if i < k {
      UntilFirstDoneFrom(s, i + 1, k);
    }
  }

  /** A reply `Done` at `k` with none before it: the loop stops there. */
  lemma UntilFirstDone(s: seq<string>, k: nat)
    requires k < |s| && ReplyAt(s, k, Silence) == "Done"
    requires forall j :: 0 <= j < k ==> ReplyAt(s, j, Silence) != "Done"
    ensures SetsUntilDone(s) == k + 1
  {
    assert forall j :: 0 <= j < k ==> s[j] == ReplyAt(s, j, Silence);
    UntilFirstDoneFrom(s, 0, k);
  }

  /** No `Done` among the `k + 1` replies from `i` on that use up the
    * script: the loop from `i` made exactly those calls. */
  lemma {:induction false} UntilNoDoneFrom(s: seq<string>, i: nat, k: nat)
    requires i + k + 1 >= |s| && (k == 0 || i + k < |s|)
    requires forall j :: i <= j < i + k ==> s[j] != "Done"
    requires ReplyAt(s, i + k, Silence) != "Done"
    ensures forall j :: i <= j < |s| ==> s[j] != "Done"
    ensures SetsFrom(s, i) == k + 1
    decreases k
  {
    if k > 0 {
      UntilNoDoneFrom(s, i + 1, k - 1);
    } else if i < |s| {
      assert s[i] == ReplyAt(s, i + k, Silence);
    }
  }

  /** No `Done` among the replies a loop of `k + 1` calls has used up:
    * the loop made exactly those calls. */
  lemma UntilNoDone(s: seq<string>, k: nat)
    requires k + 1 >= |s| && (k == 0 || k < |s|)
    requires forall j :: 0 <= j <= k ==> ReplyAt(s, j, Silence) != "Done"
    ensures "Done" !in s && SetsUntilDone(s) == k + 1
  {
    assert forall j :: 0 <= j < k ==> s[j] == ReplyAt(s, j, Silence);
    UntilNoDoneFrom(s, 0, k);
  }

  /** The lines one `set_bias` leaves: the driver's own line (the bias set,
    * or the raw reply), then the reported message. */
  function SetNote(show: real -> string, arg: Arg, reply: string): seq<string> {
    [if reply != "Done" then BytesRepr(reply) else "STM bias set to " + ArgText(arg, show) + "."] + [reply]
  }

  /** The lines of the first `n` calls on the replies `s`, each call's
    * lines written by `note`. */
  function NotesBy(note: string -> seq<string>, s: seq<string>, n: nat): seq<string> {
    if n == 0 then [] else NotesBy(note, s, n - 1) + note(ReplyAt(s, n - 1, Silence))
  }

  /** `note` writes what one `set_bias` call leaves in the log. */
  ghost predicate WritesSetNote(note: string -> seq<string>, show: real -> string, arg: Arg) {
    forall r {:trigger SetNote(show, arg, r)} :: note(r) == SetNote(show, arg, r)
  }

  /** `SetNote` as a function of the reply alone. */
  function SetNoteBy(show: real -> string, arg: Arg): (note: string -> seq<string>)
    ensures WritesSetNote(note, show, arg)
  {
    r => SetNote(show, arg, r)
  }

  /** The lines of the first `n` `set_bias` calls on the replies `s`. */
  function SetNotes(show: real -> string, arg: Arg, s: seq<string>, n: nat): seq<string> {
    NotesBy(SetNoteBy(show, arg), s, n)
  }

  /** A reader of the controller's replies, as `float()` reads them in
    * `get_bias`. The read-back loops below are stated for any reader that
    * agrees with `ParseFloat`, so that their proofs need not look inside
    * the parser. */
  type Parser = string -> Option<real>

  /** `parse` reads every reply as `float()` does. */
  ghost predicate Agrees(parse: Parser) {
    forall r {:trigger ParseFloat(r)} :: parse(r) == ParseFloat(r)
  }

  /** `arb` builds every pulse as `create_arb` does. Like `Parser`, it keeps
    * the pulse's construction out of the runner's proofs. */
  ghost predicate BuildsArbs(arb: Pulse -> seq<real>) {
    forall p {:trigger CreateArbAsWritten(p)} :: arb(p) == CreateArbAsWritten(p)
  }

  /** `BiasPolls`, with the replies read by `parse`. */
  function PollsBy(parse: Parser, s: seq<string>): (n: nat)
    ensures 1 <= n <= 2
  {
    if parse(Head(s, Silence)).Some? then 1 else 2
  }

  /** `ReadBias`, with the replies read by `parse`. */
  function BiasBy(parse: Parser, s: seq<string>): Option<real> {
    var first := parse(Head(s, Silence));
    if first.Some? then first else parse(Head(Tail(s), Silence))
  }

  /** A reader that agrees with `float()` makes `get_bias` ask as often and
    * return the same reading. */
  lemma ReadsLikeFloat(parse: Parser, s: seq<string>)
    requires Agrees(parse)
    ensures PollsBy(parse, s) == BiasPolls(s) && BiasBy(parse, s) == ReadBias(s)
  {
    assert parse(Head(s, Silence)) == ParseFloat(Head(s, Silence));
    assert parse(Head(Tail(s), Silence)) == ParseFloat(Head(Tail(s), Silence));
  }

  /** How a read-back loop ends: the `get_bias` requests it made, the
    * last reading, and whether the replies ran out while it still wanted
    * one. */
  datatype ReadBack = ReadBack(polls: nat, bias: Option<real>, hung: bool)

  /** A read-back loop that made `p` requests before the loop `r`. */
  function Shifted(p: nat, r: ReadBack): ReadBack {
    ReadBack(p + r.polls, r.bias, r.hung)
  }

  /** The read-back loop `while(type(bias) != float and bias != target)` on
    * the controller's replies `s`: one `get_bias`, and another while the
    * reading is not a number and the target is not None; hung when no
    * replies are left for the next one. */
  function ReadBackOf(parse: Parser, s: seq<string>, target: Option<real>): ReadBack
    decreases |s|
  {
    var k := PollsBy(parse, s);
    if BiasBy(parse, s).Some? || target.None? then ReadBack(k, BiasBy(parse, s), false)
    else if Skip(s, k) == [] then ReadBack(k, None, true)
    else Shifted(k, ReadBackOf(parse, Skip(s, k), target))
  }

  /** A read-back makes at least the requests of its first `get_bias`. It
    * hangs only while it wants a number, once every reply is used up;
    * otherwise it ends on a number, unless the target is None. */
  lemma {:induction false} ReadBackEnds(parse: Parser, s: seq<string>, target: Option<real>)
    ensures var r := ReadBackOf(parse, s, target);
      r.polls >= PollsBy(parse, s)
      && (r.hung ==> r.bias.None? && target.Some? && r.polls >= |s|)
      && (!r.hung ==> (r.bias.Some? || target.None?))
    decreases |s|
  {
    var k := PollsBy(parse, s);
    if !(BiasBy(parse, s).Some? || target.None?) && Skip(s, k) != [] {
      ReadBackEnds(parse, Skip(s, k), target);
    }
  }

  /** How a set-then-read-back step went: the `set_bias` calls and the
    * read-back. */
  datatype Confirm = Confirm(sets: nat, back: ReadBack)

  /** The set-then-read-back step on the controller's replies `s`: the sets
    * up to the first `Done`, then the read-back on the replies after it;
    * without a `Done` the step hangs before reading back. */
  function ConfirmOf(parse: Parser, s: seq<string>, target: Option<real>): Confirm
  {
    var n := SetsUntilDone(s);
    if "Done" !in s then Confirm(n, ReadBack(0, None, true)) else Confirm(n, ReadBackOf(parse, Skip(s, n), target))
  }

  /** The replies a step that did not hang has consumed. */
  function Used(c: Confirm): nat {
    c.sets + c.back.polls
  }

  /** The lowering step of `run` on the controller's replies `s` after the
    * freeze: it starts after the reads behind `prev_bias`. */
  function LowerStep(parse: Parser, s: seq<string>): Confirm {
    ConfirmOf(parse, Skip(s, PollsBy(parse, s)), Some(BiasMin))
  }

  /** The restoring step, on the replies the lowering left: the sweep
    * talks to the other instruments only, so nothing else consumes them. */
  function RestoreStep(parse: Parser, s: seq<string>): Confirm {
    ConfirmOf(parse, Skip(s, PollsBy(parse, s) + Used(LowerStep(parse, s))), BiasBy(parse, s))
  }

  /** The loops of `run` on the replies `s`: the reads behind `prev_bias`,
    * then the tries of the lowering and of the restoring step. */
  function BiasTries(parse: Parser, s: seq<string>): Tries {
    Tries(PollsBy(parse, s), LowerStep(parse, s).sets, LowerStep(parse, s).back.polls, RestoreStep(parse, s).sets, RestoreStep(parse, s).back.polls)
  }

  /** A run's bias loops hang on the replies `s`: the lowering step does,
    * or the restoring step on the replies the lowering left. */
  predicate BiasHangs(parse: Parser, s: seq<string>) {
    LowerStep(parse, s).back.hung || RestoreStep(parse, s).back.hung
  }

  /** The step makes at least one `set_bias` call; it hangs, or its
    * read-back makes at least one request and ends on a number unless the
    * target is None. */
  lemma ConfirmEnds(parse: Parser, s: seq<string>, target: Option<real>)
    ensures var c := ConfirmOf(parse, s, target);
      c.sets >= 1 && (c.back.hung || (c.back.polls >= 1 && (c.back.bias.Some? || target.None?)))
  {
    ReadBackEnds(parse, Skip(s, SetsUntilDone(s)), target);
  }

  /** On replies where no bias loop hangs, `run` reads the bias once or
    * twice and goes round each set and read-back loop at least once. */
  lemma TriesValid(parse: Parser, s: seq<string>)
    requires !BiasHangs(parse, s)
    ensures BiasTries(parse, s).Valid()
  {
    ConfirmEnds(parse, Skip(s, PollsBy(parse, s)), Some(BiasMin));
    ConfirmEnds(parse, Skip(s, PollsBy(parse, s) + Used(LowerStep(parse, s))), BiasBy(parse, s));
  }

  /** The lowering step taken after `first` reads is `LowerStep`. */
  lemma LowerStepOf(parse: Parser, s: seq<string>, first: nat, lower: Confirm)
    requires first == PollsBy(parse, s)
    requires lower == ConfirmOf(parse, Skip(s, first), Some(BiasMin))
    ensures LowerStep(parse, s) == lower
  {
  }

  /** The restoring step taken on what the lowering step left is
    * `RestoreStep`. */
  lemma RestoreStepOf(parse: Parser, s: seq<string>, first: nat, lower: Confirm, rest: Confirm)
    requires first == PollsBy(parse, s) && LowerStep(parse, s) == lower
    requires rest == ConfirmOf(parse, Skip(s, first + Used(lower)), BiasBy(parse, s))
    ensures RestoreStep(parse, s) == rest
  {
    var k := PollsBy(parse, s) + Used(LowerStep(parse, s));
    assert k == first + Used(lower);
    assert Skip(s, k) == Skip(s, first + Used(lower));
  }

  /** The two steps taken one after the other: `first` reads, the
    * lowering step `lower` and the restoring step `rest` on what it left,
    * are `LowerStep` and `RestoreStep`. */
  lemma StepsOf(parse: Parser, s: seq<string>, first: nat, lower: Confirm, rest: Confirm)
    requires first == PollsBy(parse, s)
    requires lower == ConfirmOf(parse, Skip(s, first), Some(BiasMin))
    requires rest == ConfirmOf(parse, Skip(s, first + Used(lower)), BiasBy(parse, s))
    ensures LowerStep(parse, s) == lower && RestoreStep(parse, s) == rest
  {
    LowerStepOf(parse, s, first, lower);
    RestoreStepOf(parse, s, first, lower, rest);
  }

  /** The lines one `set_tip_control(mode)` leaves, reported. */
  function TipNote(mode: string, reply: string): seq<string> {
    [if reply != "Done" then BytesRepr(reply) else "STM tip control set to " + mode] + [reply]
  }

  /** How often each retrying loop went round: the bias reads behind
    * `prev_bias` (one or two), and the tries of each set and read-back
    * loop. */
  datatype Tries = Tries(first: nat, lowerSets: nat, lowerReads: nat, restoreSets: nat, restoreReads: nat)
  {
    predicate Valid() {
      1 <= first <= 2 && lowerSets >= 1 && lowerReads >= 1 && restoreSets >= 1 && restoreReads >= 1
    }
  }

  /** The message that holds the tip where it is. */
  function Freeze(): Event {
    ToStm(TipControlMsg("Freeze"))
  }

  /** The message that hands the tip back to the feedback loop. */
  function Release(): Event {
    ToStm(TipControlMsg("Unlimit"))
  }

  /** Lowering the bias: the reads behind `prev_bias`, then the set and
    * read-back loops for the minimum bias. */
  function LowerTrace(t: Tries): seq<Event> {
    Repeat([ToStm(GetBiasMsg)], t.first)
    + Repeat([ToStm(SetBiasMsg(Num(BiasMin)))], t.lowerSets) + Repeat([ToStm(GetBiasMsg)], t.lowerReads)
  }

  /** Channel 1 on, the buffering request, the passes, channel 1 off. */
  function SweepTrace(p: Procedure, e: Experiment, spectra: nat): seq<Event> {
    [ToAwg(OutputCmd(1, true))] + [ToLockIn("X.")]
    + Repeat(SweepEvents(p.call, p.channel.Number(), SweepValues(e)), spectra)
    + [ToAwg(OutputCmd(1, false))]
  }

  /** Putting the bias back, and only then releasing the tip. */
  function RestoreTrace(prev: Option<real>, t: Tries): seq<Event> {
    Repeat([ToStm(SetBiasMsg(ArgOf(prev)))], t.restoreSets) + Repeat([ToStm(GetBiasMsg)], t.restoreReads)
    + [Release()]
  }

  /** Everything sent after the tip is frozen, on a run that finishes. */
  function MeasureTrace(p: Procedure, e: Experiment, spectra: nat, prev: Option<real>, t: Tries): seq<Event> {
    LowerTrace(t) + SweepTrace(p, e, spectra) + RestoreTrace(prev, t)
  }

  /** No event of `es` releases the tip. */
  predicate KeepsTip(es: seq<Event>) {
    forall k :: 0 <= k < |es| ==> es[k] != Release()
  }

  /** No event of `es` from position `from` on releases the tip. */
  predicate KeepsTipFrom(es: seq<Event>, from: nat) {
    forall k :: from <= k < |es| ==> es[k] != Release()
  }

  lemma KeepsTipAppend(es: seq<Event>, from: nat, more: seq<Event>)
    requires KeepsTipFrom(es, from) && KeepsTip(more)
    ensures KeepsTipFrom(es + more, from)
  {
    forall k | from <= k < |es + more|
      ensures (es + more)[k] != Release()
    {
      if k >= |es| {
        assert (es + more)[k] == more[k - |es|];
      }
    }
  }

  /** A log that only grew by messages to the other instruments still
    * keeps the tip. */
  lemma KeepsTipGrown(before: seq<Event>, more: seq<Event>, from: nat)
    requires KeepsTipFrom(before, from) && Quiet(more)
    ensures KeepsTipFrom(before + more, from)
  {
    forall k | from <= k < |before + more|
      ensures (before + more)[k] != Release()
    {
      if k >= |before| {
        assert (before + more)[k] == more[k - |before|];
      }
    }
  }

  /** A run ends in one of three ways: it returns `(x, data)`, it keeps
    * polling an instrument that has stopped answering, or it raises. */
  datatype Outcome = Finished(x: seq<real>, data: seq<Reading>) | Hung | Raised(error: string)

  lemma TipModes()
    ensures Title("freeze") == "Freeze" && Title("unlimit") == "Unlimit"
  {
    var f := Title("freeze");
    assert f[0] == 'F' && f[1] == 'r' && f[2] == 'e' && f[3] == 'e' && f[4] == 'z' && f[5] == 'e';
    var u := Title("unlimit");
    assert u[0] == 'U' && u[1] == 'n' && u[2] == 'l' && u[3] == 'i' && u[4] == 'm' && u[5] == 'i' && u[6] == 't';
  }

  /** The bias messages are never the release of the tip. */
  lemma BiasKeepsTip(target: Arg, sets: nat, polls: nat)
    ensures KeepsTip(Repeat([ToStm(SetBiasMsg(target))], sets) + Repeat([ToStm(GetBiasMsg)], polls))
  {
    RepeatSingle(ToStm(SetBiasMsg(target)), sets);
    RepeatSingle(ToStm(GetBiasMsg), polls);
  }

  /** Nor are the requests of the bias lowering: the first reads, the sets and
    * the read-backs. */
  lemma LowerKeepsTip(e0: seq<Event>, from: nat, first: nat, sets: nat, polls: nat, es: seq<Event>)
    requires KeepsTipFrom(e0, from)
    requires es == ((e0 + Repeat([ToStm(GetBiasMsg)], first))
      + Repeat([ToStm(SetBiasMsg(Num(BiasMin)))], sets)) + Repeat([ToStm(GetBiasMsg)], polls)
    ensures es == e0 + (Repeat([ToStm(GetBiasMsg)], first)
      + Repeat([ToStm(SetBiasMsg(Num(BiasMin)))], sets) + Repeat([ToStm(GetBiasMsg)], polls))
    ensures KeepsTipFrom(es, from)
  {
    var asked := Repeat([ToStm(GetBiasMsg)], first);
    var lowered := Repeat([ToStm(SetBiasMsg(Num(BiasMin)))], sets);
    var confirmed := Repeat([ToStm(GetBiasMsg)], polls);
    RepeatSingle(ToStm(GetBiasMsg), first);
    KeepsTipAppend(e0, from, asked);
    BiasKeepsTip(Num(BiasMin), sets, polls);
    Appended(es, e0 + asked, lowered, confirmed);
    KeepsTipAppend(e0 + asked, from, lowered + confirmed);
    Appended2(es, e0, asked, lowered, confirmed);
  }

  /** The read-back loop over `s`, told from where it is after `polls`
    * requests whose last reading was `bias`: over if the reading is a
    * number or the target None, hung if nothing is left, else the rest. */
  function ReadBackAt(parse: Parser, s: seq<string>, target: Option<real>, polls: nat, bias: Option<real>): ReadBack {
    if bias.Some? || target.None? then ReadBack(polls, bias, false)
    else if Skip(s, polls) == [] then ReadBack(polls, None, true)
    else Shifted(polls, ReadBackOf(parse, Skip(s, polls), target))
  }

  /** One more `get_bias()` of the read-back loop over `s`, after `polls`
    * requests that found no number and left a reply. */
  lemma ReadBackStep(parse: Parser, s: seq<string>, target: Option<real>, polls: nat, n: nat, bias: Option<real>)
    requires target.Some? && Skip(s, polls) != [] && n == PollsBy(parse, Skip(s, polls))
    requires bias == BiasBy(parse, Skip(s, polls))
    requires ReadBackOf(parse, s, target) == ReadBackAt(parse, s, target, polls, None)
    ensures ReadBackOf(parse, s, target) == ReadBackAt(parse, s, target, polls + n, bias)
  {
    SkipSkip(s, polls, n);
  }

  /** A log that held `p` copies of `m` after `e0` and then received `n`
    * more holds `p + n`. */
  lemma RepeatGrows(e0: seq<Event>, m: seq<Event>, p: nat, n: nat, es: seq<Event>)
    requires es == (e0 + Repeat(m, p)) + Repeat(m, n)
    ensures es == e0 + Repeat(m, p + n)
  {
    RepeatAdd(m, p, n);
  }

  // ----------------------------------------------------------- the runner

  class PumpProbe {
    const config: Config
    const bench: Bench
    const stm: RhkR9
    const lockin: LockIn
    const awg: Awg
    /** How the runner's bias loops read the controller's replies: as
      * `float()` does, by `Wired`. */
    ghost const parse: Parser
    /** The waveform the upload sends for a pulse: `create_arb`'s, by
      * `Wired`. */
    ghost const arb: Pulse -> seq<real>

    /** All three instruments talk over the same bench, and the AWG is the
      * packaged driver. */
    ghost predicate Wired() {
      stm.bench == bench && lockin.bench == bench && awg.bench == bench && awg.driver == PackageDriver
      && Agrees(parse) && BuildsArbs(arb)
    }

    constructor (stm: RhkR9, config: Config)
      ensures this.stm == stm && this.config == config && bench == stm.bench && Wired()
      ensures fresh(lockin) && fresh(awg) && lockin.ip == config.lockinIp && awg.id == config.awgId && awg.show == stm.show
      ensures !lockin.connected && !awg.connected
    {
      this.config := config;
      this.stm := stm;
      this.bench := stm.bench;
      this.parse := r => ParseFloat(r);
      this.arb := p => CreateArbAsWritten(p);
      lockin := new LockIn(config.lockinIp, stm.bench);
      awg := new Awg(config.awgId, PackageDriver, stm.bench, stm.show);
    }

    /** The phase that delays the probe by `fixed_time_delay` past the pump. */
    function ProbePhase(e: Experiment): real
      requires e.fixedTimeDelay.Some?
    {
      (e.fixedTimeDelay.value + 2.0 * e.pump.edge + e.pump.width) * config.sampleRate / 360.0
    }

    /** A fresh upload: both instruments reset and the lock-in front end set
      * up, then the pulses. */
    ghost function UploadEvents(e: Experiment): seq<Event> {
      ResetEvents + PulseEvents(e, arb(e.pump), arb(e.probe))
    }

    /** The pump's samples to channel 2 and the probe's to channel 1, the
      * probe modulated at the lock-in frequency, the pump fed into the
      * probe's output, and the waveforms restarted together. */
    function PulseEvents(e: Experiment, pumpData: seq<real>, probeData: seq<real>): seq<Event> {
      Awgs(UploadCommands(PackageDriver, Pump.Number(), "Pump", pumpData, config.sampleRate, e.pump.amp))
      + Awgs(UploadCommands(PackageDriver, Probe.Number(), "Probe", probeData, config.sampleRate, e.probe.amp))
      + Awgs(ModulationCommands(Probe.Number(), config.lockinFreq))
      + Awgs(CombineCommands(Probe.Number(), Pump.Number()))
      + Awgs(SyncCommands(false, true))
    }

    /** Without an upload: the pump's amplitude, then the probe's. */
    function LevelEvents(e: Experiment, awgUp: bool): seq<Event> {
      if awgUp then
        Awgs(AmpCommands(PackageDriver, Pump.Number(), e.pump.amp, 0))
        + Awgs(AmpCommands(PackageDriver, Probe.Number(), e.probe.amp, 0))
      else []
    }

    /** What the set-up sends: the upload, or only the two amplitudes, then
      * the probe's phase when a fixed delay is set. */
    ghost function PrepEvents(e: Experiment, newArb: bool, awgUp: bool): seq<Event> {
      (if newArb then UploadEvents(e) else LevelEvents(e, awgUp))
      + (if awgUp && Truthy(e.fixedTimeDelay) then Awgs([PhaseCmd(Probe.Number(), ProbePhase(e)), Wai]) else [])
    }

    /** The set-up talks only to the AWG and the lock-in. */
    lemma PrepQuiet(e: Experiment, newArb: bool, awgUp: bool)
      ensures KeepsTip(PrepEvents(e, newArb, awgUp))
    {
      var pump := UploadCommands(PackageDriver, Pump.Number(), "Pump", arb(e.pump), config.sampleRate, e.pump.amp);
      var probe := UploadCommands(PackageDriver, Probe.Number(), "Probe", arb(e.probe), config.sampleRate, e.probe.amp);
      AwgsAppend(pump, probe);
      AwgsAppend(pump + probe, ModulationCommands(Probe.Number(), config.lockinFreq));
      AwgsAppend(pump + probe + ModulationCommands(Probe.Number(), config.lockinFreq), CombineCommands(Probe.Number(), Pump.Number()));
      AwgsAppend(pump + probe + ModulationCommands(Probe.Number(), config.lockinFreq) + CombineCommands(Probe.Number(), Pump.Number()),
        SyncCommands(false, true));
      AwgsQuiet(pump + probe + ModulationCommands(Probe.Number(), config.lockinFreq) + CombineCommands(Probe.Number(), Pump.Number())
        + SyncCommands(false, true));
      LockInQuiet(DefaultCommands);
      QuietAppend([ToAwg(Rst), ToLockIn("*CLS")], ToLockInAll(DefaultCommands));
      QuietAppend(ResetEvents, PulseEvents(e, arb(e.pump), arb(e.probe)));
      var amps := AmpCommands(PackageDriver, Pump.Number(), e.pump.amp, 0) + AmpCommands(PackageDriver, Probe.Number(), e.probe.amp, 0);
      AwgsAppend(AmpCommands(PackageDriver, Pump.Number(), e.pump.amp, 0), AmpCommands(PackageDriver, Probe.Number(), e.probe.amp, 0));
      AwgsQuiet(amps);
      var first := if newArb then UploadEvents(e) else LevelEvents(e, awgUp);
      var phase := if awgUp && Truthy(e.fixedTimeDelay) then Awgs([PhaseCmd(Probe.Number(), ProbePhase(e)), Wai]) else [];
      if awgUp && Truthy(e.fixedTimeDelay) {
        AwgsQuiet([PhaseCmd(Probe.Number(), ProbePhase(e)), Wai]);
      }
      QuietAppend(first, phase);
      QuietKeepsTip(first + phase);
    }

    /** The set-up raises only on the upload path, when the AWG or the
      * lock-in has no handle for its `reset`. */
    function PrepError(newArb: bool, awgUp: bool, lockinUp: bool): Option<string> {
      if newArb && !awgUp then Some(NoneAttribute("write"))
      else if newArb && !lockinUp then Some(NoneAttribute("send"))
      else None
    }

    /** What the upload branch logs: each reset announced before it is
      * tried, then the upload announced and the note on each pulse's error
      * query. */
    function UploadLog(awgUp: bool, lockinUp: bool, replies: seq<Reply>): seq<string> {
      ["Resetting AWG"] + (if awgUp then ["Resetting Lock-In"] else [])
      + (if awgUp && lockinUp then ["Sending new waveform to AWG"] + PulseNotes(replies) else [])
    }

    /** The notes `send_arb_ch` logs on the pump's and the probe's error
      * queries. */
    function PulseNotes(replies: seq<Reply>): seq<string> {
      [ UploadNote(PackageDriver, AsResult(ReplyAt(replies, 0, VisaTimeout)).msg),
        UploadNote(PackageDriver, AsResult(ReplyAt(replies, 1, VisaTimeout)).msg) ]
    }

    /** The upload branch of `run`: reset both instruments, set up the
      * lock-in, send both pulses and wire the channels together. */
    method Upload(e: Experiment, log: Log) returns (raised: Option<string>)
      requires Wired()
      modifies bench`events, bench`awgReplies, log
      ensures raised == PrepError(true, awg.connected, lockin.connected)
      ensures log.lines == old(log.lines) + UploadLog(awg.connected, lockin.connected, old(bench.awgReplies))
      ensures raised.None? ==> bench.events == old(bench.events) + UploadEvents(e)
      ensures raised.Some? ==> bench.events == old(bench.events) + (if awg.connected then [ToAwg(Rst)] else [])
      ensures bench.awgReplies == (if raised.None? then Skip(old(bench.awgReplies), 2) else old(bench.awgReplies))
    {
      ghost var e0, g0, r0 := bench.events, log.lines, bench.awgReplies;
      raised := ResetBoth(log);
      if raised.Some? {
        assert log.lines == g0 + UploadLog(awg.connected, lockin.connected, r0);
        return;
      }
      SendNewWaveform(e, log);
      assert UploadLog(true, true, r0) == ["Resetting AWG", "Resetting Lock-In"] + (["Sending new waveform to AWG"] + PulseNotes(r0));
      Appended(bench.events, e0, ResetEvents, PulseEvents(e, arb(e.pump), arb(e.probe)));
    }

    /** The announcement, then both pulses as `create_arb` builds them. */
    method SendNewWaveform(e: Experiment, log: Log)
      requires Wired() && awg.connected
      modifies bench`events, bench`awgReplies, log
      ensures bench.events == old(bench.events) + PulseEvents(e, arb(e.pump), arb(e.probe))
      ensures bench.awgReplies == Skip(old(bench.awgReplies), 2)
      ensures log.lines == old(log.lines) + (["Sending new waveform to AWG"] + PulseNotes(old(bench.awgReplies)))
    {
      log.lines := log.lines + ["Sending new waveform to AWG"];
      var pumpArb := CreateArbAsWritten(e.pump);
      var probeArb := CreateArbAsWritten(e.probe);
      PulsesNormalized(e);
      SendPulses(e, pumpArb, probeArb, log);
    }

    /** Both pulses `create_arb` builds are already normalised, so
      * `send_arb_ch` uploads them unchanged. */
    lemma PulsesNormalized(e: Experiment)
      ensures Peak(CreateArbAsWritten(e.pump)) > 0.0 && Peak(CreateArbAsWritten(e.probe)) > 0.0
      ensures PulseEvents(e, Normalize(CreateArbAsWritten(e.pump)), Normalize(CreateArbAsWritten(e.probe)))
        == PulseEvents(e, CreateArbAsWritten(e.pump), CreateArbAsWritten(e.probe))
    {
      ArbIsNormalized(e.pump);
      ArbIsNormalized(e.probe);
    }

    /** `awg.reset()` and `lockin.reset()`, then the lock-in's defaults. */
    method ResetBoth(log: Log) returns (raised: Option<string>)
      requires Wired()
      modifies bench`events, log
      ensures raised == PrepError(true, awg.connected, lockin.connected)
      ensures log.lines == old(log.lines) + ["Resetting AWG"] + (if awg.connected then ["Resetting Lock-In"] else [])
      ensures raised.None? ==> bench.events == old(bench.events) + ResetEvents
      ensures raised.Some? ==> bench.events == old(bench.events) + (if awg.connected then [ToAwg(Rst)] else [])
    {
      ghost var e0 := bench.events;
      log.lines := log.lines + ["Resetting AWG"];
      raised := awg.Reset();
      if raised.Some? {
        return;
      }
      log.lines := log.lines + ["Resetting Lock-In"];
      raised := lockin.Reset();
      if raised.Some? {
        return;
      }
      Appended(bench.events, e0, [ToAwg(Rst)], [ToLockIn("*CLS")]);
      lockin.Default();
      Appended(bench.events, e0, [ToAwg(Rst), ToLockIn("*CLS")], ToLockInAll(DefaultCommands));
    }

    /** Both pulses, each normalised and uploaded with its error query, then
      * the modulation, the combination and the sync. */
    method SendPulses(e: Experiment, pumpArb: seq<real>, probeArb: seq<real>, log: Log)
      requires Wired() && awg.connected && Peak(pumpArb) > 0.0 && Peak(probeArb) > 0.0
      modifies bench`events, bench`awgReplies, log
      ensures bench.events == old(bench.events) + PulseEvents(e, Normalize(pumpArb), Normalize(probeArb))
      ensures bench.awgReplies == Skip(old(bench.awgReplies), 2)
      ensures log.lines == old(log.lines) + PulseNotes(old(bench.awgReplies))
    {
      ghost var e0 := bench.events;
      ghost var replies := bench.awgReplies;
      var _, _ := awg.SendArbCh(pumpArb, e.pump.amp, config.sampleRate, "Pump", Pump.Number(), log);
      ghost var sent := Awgs(UploadCommands(PackageDriver, Pump.Number(), "Pump", Normalize(pumpArb), config.sampleRate, e.pump.amp));
      var _, _ := awg.SendArbCh(probeArb, e.probe.amp, config.sampleRate, "Probe", Probe.Number(), log);
      ghost var more := Awgs(UploadCommands(PackageDriver, Probe.Number(), "Probe", Normalize(probeArb), config.sampleRate, e.probe.amp));
      Appended(bench.events, e0, sent, more);
      sent := sent + more;
      SkipZero(replies);
      SkipStep(replies, 0, VisaTimeout);
      SkipStep(replies, 1, VisaTimeout);
      var _ := awg.ModulateAmplitude(config.lockinFreq, Probe.Number());
      Appended(bench.events, e0, sent, Awgs(ModulationCommands(Probe.Number(), config.lockinFreq)));
      sent := sent + Awgs(ModulationCommands(Probe.Number(), config.lockinFreq));
      var _ := awg.CombineChannels(Probe.Number(), Pump.Number());
      Appended(bench.events, e0, sent, Awgs(CombineCommands(Probe.Number(), Pump.Number())));
      sent := sent + Awgs(CombineCommands(Probe.Number(), Pump.Number()));
      var _ := awg.SyncChannels(false, true);
      Appended(bench.events, e0, sent, Awgs(SyncCommands(false, true)));
    }

    /** Everything `run` does before freezing the tip. */
    method Prepare(e: Experiment, newArb: bool, ghost from: nat, log: Log) returns (raised: Option<string>)
      requires Wired() && KeepsTipFrom(bench.events, from)
      modifies bench`events, bench`awgReplies, log
      ensures KeepsTipFrom(bench.events, from)
      ensures raised == PrepError(newArb, awg.connected, lockin.connected)
      ensures raised.None? ==> bench.events == old(bench.events) + PrepEvents(e, newArb, awg.connected)
      ensures raised.Some? ==> bench.events == old(bench.events) + (if awg.connected then [ToAwg(Rst)] else [])
      ensures bench.awgReplies == (if newArb && raised.None? then Skip(old(bench.awgReplies), 2) else old(bench.awgReplies))
      ensures log.lines == old(log.lines) + (if newArb then UploadLog(awg.connected, lockin.connected, old(bench.awgReplies)) else [])
    {
      ghost var e0 := bench.events;
      if newArb {
        raised := Upload(e, log);
        if raised.Some? {
          KeepsTipGrown(e0, if awg.connected then [ToAwg(Rst)] else [], from);
          return;
        }
      } else {
        SetLevels(e);
        raised := None;
      }
      ghost var e1 := bench.events;
      if Truthy(e.fixedTimeDelay) {
        awg.SetPhase(ProbePhase(e), Probe.Number());
      }
      Appended(bench.events, e0, if newArb then UploadEvents(e) else LevelEvents(e, awg.connected),
        if awg.connected && Truthy(e.fixedTimeDelay) then Awgs([PhaseCmd(Probe.Number(), ProbePhase(e)), Wai]) else []);
      PrepQuiet(e, newArb, awg.connected);
      KeepsTipAppend(e0, from, PrepEvents(e, newArb, awg.connected));
    }

    /** A repeated pulse: only the two amplitudes, the pump's then the
      * probe's. */
    method SetLevels(e: Experiment)
      requires Wired()
      modifies bench`events
      ensures bench.events == old(bench.events) + LevelEvents(e, awg.connected)
    {
      ghost var e0 := bench.events;
      awg.SetAmp(e.pump.amp, Pump.Number(), 0);
      awg.SetAmp(e.probe.amp, Probe.Number(), 0);
      Appended(bench.events, e0, if awg.connected then Awgs(AmpCommands(PackageDriver, Pump.Number(), e.pump.amp, 0)) else [],
        if awg.connected then Awgs(AmpCommands(PackageDriver, Probe.Number(), e.probe.amp, 0)) else []);
    }

    /** `set_bias(target).report(logger=logger)`: one request, one reply. */
    method SetBiasOnce(arg: Arg, log: Log) returns (r: Result)
      requires stm.bench == bench
      modifies bench`events, bench`stmReplies, log
      ensures bench.events == old(bench.events) + [ToStm(SetBiasMsg(arg))]
      ensures bench.stmReplies == Tail(old(bench.stmReplies))
      ensures r == Acknowledgement(Head(old(bench.stmReplies), Silence))
      ensures log.lines == old(log.lines) + SetNote(stm.show, arg, Head(old(bench.stmReplies), Silence))
    {
      r := stm.SetBias(arg, log);
      r.Report(log);
    }

    /** `set_bias(target)` until the controller acknowledges it with
      * `Done`: as many calls as `SetsUntilDone` counts, none of them
      * acknowledged but the last. Hung exactly when no `Done` comes, the
      * controller having no more replies while the loop still wants one. */
    method SetBiasUntilDone(arg: Arg, log: Log) returns (hung: bool, ghost sets: nat)
      requires stm.bench == bench
      modifies bench`events, bench`stmReplies, log
      ensures sets == SetsUntilDone(old(bench.stmReplies))
      ensures hung <==> "Done" !in old(bench.stmReplies)
      ensures forall j :: 0 <= j < sets - 1 ==> ReplyAt(old(bench.stmReplies), j, Silence) != "Done"
      ensures bench.events == old(bench.events) + Repeat([ToStm(SetBiasMsg(arg))], sets)
      ensures hung ==> bench.stmReplies == []
      ensures !hung ==> (ReplyAt(old(bench.stmReplies), sets - 1, Silence) == "Done"
        && bench.stmReplies == Skip(old(bench.stmReplies), sets))
      ensures log.lines == old(log.lines) + SetNotes(stm.show, arg, old(bench.stmReplies), sets)
    {
      ghost var s0 := bench.stmReplies;
      hung, sets := SetBiasLoop(arg, log, SetNoteBy(stm.show, arg), s0, bench.events, log.lines);
      SetsStop(s0, sets, hung);
    }

    /** The `set_bias` loop itself, from the replies `s0`, the events `e0`
      * and the log `g0` it starts with: where it stops, and the count
      * `SetsFrom` still owes from there. */
    method SetBiasLoop(arg: Arg, log: Log, ghost note: string -> seq<string>, ghost s0: seq<string>, ghost e0: seq<Event>, ghost g0: seq<string>)
      returns (hung: bool, ghost sets: nat)
      requires stm.bench == bench && WritesSetNote(note, stm.show, arg)
      requires bench.stmReplies == s0 && bench.events == e0 && log.lines == g0
      modifies bench`events, bench`stmReplies, log
      ensures sets >= 1 && (sets == 1 || sets <= |s0|)
      ensures SetsUntilDone(s0) == sets - 1 + SetsFrom(s0, sets - 1)
      ensures bench.events == e0 + Repeat([ToStm(SetBiasMsg(arg))], sets)
      ensures bench.stmReplies == Skip(s0, sets)
      ensures log.lines == g0 + NotesBy(note, s0, sets)
      ensures hung ==> bench.stmReplies == [] && ReplyAt(s0, sets - 1, Silence) != "Done"
      ensures !hung ==> ReplyAt(s0, sets - 1, Silence) == "Done"
    {
      SkipZero(s0);
      var r := SetBiasRetry(arg, log, note, s0, e0, g0, 0);
      sets := 1;
      while r.err && bench.stmReplies != []
        invariant sets >= 1 && (sets == 1 || sets <= |s0|)
        invariant SetBiasAt(arg, log, note, s0, e0, g0, sets)
        invariant r.err <==> ReplyAt(s0, sets - 1, Silence) != "Done"
        invariant SetsUntilDone(s0) == sets - 1 + SetsFrom(s0, sets - 1)
        decreases |bench.stmReplies|
      {
        r := SetBiasRetry(arg, log, note, s0, e0, g0, sets);
        sets := sets + 1;
      }
      hung := r.err;
    }

    /** The state after the first `sets` calls of the `set_bias` loop that
      * started from the replies `s0`, the events `e0` and the log `g0`. */
    ghost predicate SetBiasAt(arg: Arg, log: Log, note: string -> seq<string>, s0: seq<string>, e0: seq<Event>, g0: seq<string>, sets: nat)
      reads this, bench, stm, log
    {
      bench.events == e0 + Repeat([ToStm(SetBiasMsg(arg))], sets) && bench.stmReplies == Skip(s0, sets)
      && log.lines == g0 + NotesBy(note, s0, sets)
    }

    /** Call `sets + 1` of the `set_bias` loop, from the state the first
      * `sets` left. */
    method SetBiasRetry(arg: Arg, log: Log, ghost note: string -> seq<string>, ghost s0: seq<string>, ghost e0: seq<Event>, ghost g0: seq<string>, ghost sets: nat)
      returns (r: Result)
      requires stm.bench == bench && WritesSetNote(note, stm.show, arg) && (sets == 0 || bench.stmReplies != [])
      requires SetBiasAt(arg, log, note, s0, e0, g0, sets)
      modifies bench`events, bench`stmReplies, log
      ensures sets == 0 || sets < |s0|
      ensures SetBiasAt(arg, log, note, s0, e0, g0, sets + 1)
      ensures r.err <==> ReplyAt(s0, sets, Silence) != "Done"
    {
      SkipStep(s0, sets, Silence);
      r := SetBiasOnce(arg, log);
      Appended(log.lines, g0, NotesBy(note, s0, sets), note(ReplyAt(s0, sets, Silence)));
    }

    /** One `get_bias()` of a read-back loop: one or two requests, as many
      * replies consumed, and the reading `get_bias` returns. */
    method PollOnce() returns (bias: Option<real>, ghost n: nat)
      requires stm.bench == bench && Agrees(parse)
      modifies bench`events, bench`stmReplies
      ensures n == PollsBy(parse, old(bench.stmReplies)) && bias == BiasBy(parse, old(bench.stmReplies))
      ensures bench.events == old(bench.events) + Repeat([ToStm(GetBiasMsg)], n)
      ensures bench.stmReplies == Skip(old(bench.stmReplies), n)
    {
      ReadsLikeFloat(parse, bench.stmReplies);
      n := PollsBy(parse, bench.stmReplies);
      var raised;
      bias, raised := stm.GetBias();
    }

    /** `get_bias()` until the reading is a number, or at once when the
      * target is None: the loop never compares the reading with the target.
      * It ends as `ReadBackOf` says: at the first reading that is a number,
      * or hung when the controller has no more replies while the loop still
      * wants one. */
    method PollBias(target: Option<real>) returns (hung: bool, bias: Option<real>, ghost polls: nat)
      requires stm.bench == bench && Agrees(parse)
      modifies bench`events, bench`stmReplies
      ensures ReadBack(polls, bias, hung) == ReadBackOf(parse, old(bench.stmReplies), target)
      ensures bench.events == old(bench.events) + Repeat([ToStm(GetBiasMsg)], polls)
      ensures bench.stmReplies == Skip(old(bench.stmReplies), polls)
      ensures hung ==> bench.stmReplies == []
    {
      ghost var e0 := bench.events;
      ghost var s0 := bench.stmReplies;
      bias, polls := PollOnce();
      while bias.None? && target.Some? && bench.stmReplies != []
        invariant PollAt(target, s0, e0, polls, bias)
        decreases |bench.stmReplies|
      {
        bias, polls := PollAgain(target, s0, e0, polls);
      }
      hung := bias.None? && target.Some?;
    }

    /** The state after `polls` requests of the read-back loop that started
      * from the replies `s0` and the events `e0`, its last reading `bias`:
      * what `ReadBackOf` says of the whole loop, given where it is. */
    ghost predicate PollAt(target: Option<real>, s0: seq<string>, e0: seq<Event>, polls: nat, bias: Option<real>)
      reads bench
    {
      polls >= 1 && bench.events == e0 + Repeat([ToStm(GetBiasMsg)], polls) && bench.stmReplies == Skip(s0, polls)
      && ReadBackOf(parse, s0, target) == ReadBackAt(parse, s0, target, polls, bias)
    }

    /** One more `get_bias()` of the read-back loop, from the state the
      * first `polls` requests left. */
    method PollAgain(target: Option<real>, ghost s0: seq<string>, ghost e0: seq<Event>, ghost polls: nat)
      returns (bias: Option<real>, ghost more: nat)
      requires stm.bench == bench && Agrees(parse) && target.Some? && bench.stmReplies != []
      requires PollAt(target, s0, e0, polls, None)
      modifies bench`events, bench`stmReplies
      ensures PollAt(target, s0, e0, more, bias)
      ensures |bench.stmReplies| < old(|bench.stmReplies|)
    {
      ghost var n;
      bias, n := PollOnce();
      SkipSkip(s0, polls, n);
      RepeatGrows(e0, [ToStm(GetBiasMsg)], polls, n, bench.events);
      more := polls + n;
      ReadBackStep(parse, s0, target, polls, n, bias);
    }

    /** The set-then-read-back step that `run` performs before and after
      * the measurement, as `ConfirmOf` says. */
    method ConfirmBias(target: Option<real>, log: Log)
      returns (hung: bool, bias: Option<real>, ghost sets: nat, ghost polls: nat)
      requires stm.bench == bench && Agrees(parse)
      modifies bench`events, bench`stmReplies, log
      ensures Confirm(sets, ReadBack(polls, bias, hung)) == ConfirmOf(parse, old(bench.stmReplies), target)
      ensures !hung ==> ("Done" in old(bench.stmReplies) && ReplyAt(old(bench.stmReplies), sets - 1, Silence) == "Done")
      ensures bench.events == old(bench.events)
        + Repeat([ToStm(SetBiasMsg(ArgOf(target)))], sets) + Repeat([ToStm(GetBiasMsg)], polls)
      ensures hung ==> bench.stmReplies == []
      ensures !hung ==> bench.stmReplies == Skip(old(bench.stmReplies), sets + polls)
      ensures log.lines == old(log.lines) + SetNotes(stm.show, ArgOf(target), old(bench.stmReplies), sets)
    {
      ghost var s0 := bench.stmReplies;
      hung, sets := SetBiasUntilDone(ArgOf(target), log);
      if hung {
        bias, polls := None, 0;
        return;
      }
      hung, bias, polls := PollBias(target);
      SkipSkip(s0, sets, polls);
    }

    /** `procedure.call(value, procedure.channel)`. */
    method Apply(call: SweepCall, v: real, ch: nat)
      requires Wired() && awg.connected
      modifies bench`events
      ensures bench.events == old(bench.events) + Awgs(CallCommands(call, ch, v))
    {
      match call
      case SetPhaseCall => awg.SetPhase(v, ch);
      case SetAmpCall => awg.SetAmp(v, ch, 0);
    }

    /** One sample: set the AWG, ask the lock-in for `X.` and parse what it
      * answers. */
    method Sample(call: SweepCall, ch: nat, v: real, log: Log) returns (parsed: Parsed)
      requires Wired() && awg.connected && lockin.connected
      modifies bench`events, bench`lockinReplies, log
      ensures bench.events == old(bench.events) + StepEvents(call, ch, v)
      ensures bench.lockinReplies == Tail(old(bench.lockinReplies))
      ensures parsed == Interpret(AsResult(Head(old(bench.lockinReplies), Data(Silence))))
      ensures log.lines == old(log.lines) + (if AsResult(Head(old(bench.lockinReplies), Data(Silence))).err then [XLost] else [])
    {
      Apply(call, v, ch);
      var sent := lockin.Send("X.");
      var _ := sent.value.Expected("Request for X value not sent to Lockin", log);
      var y := lockin.Recv();
      var got := y.value.Expected(XLost, log);
      parsed := Interpret(got);
    }

    /** Sample `i` of a pass, from the state the first `i` samples left:
      * either it reads and the pass moves on, or its reply raises. */
    method SweepStep(call: SweepCall, ch: nat, values: seq<real>, cf: real, log: Log, i: nat, x: seq<real>,
                     data: seq<Reading>, ghost l0: seq<Reply>, ghost g0: seq<string>, ghost e0: seq<Event>)
      returns (x': seq<real>, data': seq<Reading>, error: Option<string>)
      requires Wired() && awg.connected && lockin.connected && i < |values| && |data| == i
      requires log.lines == g0 + LostNotes(data) && x == Scale(values[..i], cf)
      requires bench.events == e0 + SweepEvents(call, ch, values[..i])
      requires bench.lockinReplies == Skip(l0, i) && ReadsFrom(l0, data)
      modifies bench`events, bench`lockinReplies, log
      ensures error.None? ==> (|data'| == i + 1 && log.lines == g0 + LostNotes(data') && x' == Scale(values[..i + 1], cf)
        && bench.events == e0 + SweepEvents(call, ch, values[..i + 1])
        && bench.lockinReplies == Skip(l0, i + 1) && ReadsFrom(l0, data'))
      ensures error.Some? ==> (data' == data && log.lines == g0 + LostNotes(data)
        && Interpret(AsResult(ReplyAt(l0, i, Data(Silence)))) == Unreadable(error.value)
        && bench.events == e0 + (SweepEvents(call, ch, values[..i]) + StepEvents(call, ch, values[i])))
    {
      assert values[..i + 1][..i] == values[..i];
      ScaleSnoc(values, i, cf);
      x', data', error := x + [values[i] * cf], data, None;
      SkipStep(l0, i, Data(Silence));
      var parsed := Sample(call, ch, values[i], log);
      Appended(bench.events, e0, SweepEvents(call, ch, values[..i]), StepEvents(call, ch, values[i]));
      match parsed
      case Unreadable(err) =>
        UnreadableReceived(AsResult(ReplyAt(l0, i, Data(Silence))));
        error := Some(err);
      case Read(reading) =>
        ReadsSnoc(l0, data, reading);
        LostNotesSnoc(data, AsResult(ReplyAt(l0, i, Data(Silence))), reading);
        data' := data + [reading];
    }

    /** One pass of the measurement loop over `values`: each sample records
      * `x` and a reading. A reply that does not parse raises; the readings
      * taken so far are those of the replies in order. */
    method SweepOnce(call: SweepCall, ch: nat, values: seq<real>, cf: real, log: Log)
      returns (x: seq<real>, data: seq<Reading>, error: Option<string>)
      requires Wired() && awg.connected && lockin.connected
      modifies bench`events, bench`lockinReplies, log
      ensures ReadsFrom(old(bench.lockinReplies), data)
      ensures log.lines == old(log.lines) + LostNotes(data)
      ensures error.None? ==> (x == Scale(values, cf) && |data| == |values|
        && bench.events == old(bench.events) + SweepEvents(call, ch, values)
        && bench.lockinReplies == Skip(old(bench.lockinReplies), |data|))
      ensures error.Some? ==> (|data| < |values|
        && Interpret(AsResult(ReplyAt(old(bench.lockinReplies), |data|, Data(Silence)))) == Unreadable(error.value)
        && bench.events == old(bench.events) + (SweepEvents(call, ch, values[..|data|]) + StepEvents(call, ch, values[|data|])))
    {
      ghost var e0 := bench.events;
      ghost var l0 := bench.lockinReplies;
      ghost var g0 := log.lines;
      SkipZero(l0);
      x, data, error := [], [], None;
      var i := 0;
      while i < |values|
        invariant 0 <= i <= |values| && |data| == i && error.None?
        invariant log.lines == g0 + LostNotes(data)
        invariant x == Scale(values[..i], cf)
        invariant bench.events == e0 + SweepEvents(call, ch, values[..i])
        invariant bench.lockinReplies == Skip(l0, i)
        invariant ReadsFrom(l0, data)
      {
        x, data, error := SweepStep(call, ch, values, cf, log, i, x, data, l0, g0, e0);
        if error.Some? {
          return;
        }
        i := i + 1;
      }
      assert values[..i] == values;
    }

    /** Pass `s + 1` of the sweep, from the state the first `s` passes
      * left: the readings taken extend `data`, and either the pass completes
      * or the sample that raised ends it. */
    method SweepPass(call: SweepCall, ch: nat, values: seq<real>, cf: real, log: Log, x: seq<real>, data: seq<Reading>,
                     s: nat, ghost l0: seq<Reply>, ghost g0: seq<string>, ghost e0: seq<Event>, ghost sent: seq<Event>)
      returns (x': seq<real>, data': seq<Reading>, error: Option<string>, ghost sent': seq<Event>)
      requires Wired() && awg.connected && lockin.connected
      requires x == Repeat(Scale(values, cf), s) && |data| == |x|
      requires sent == Repeat(SweepEvents(call, ch, values), s) && bench.events == e0 + sent
      requires bench.lockinReplies == Skip(l0, |data|) && ReadsFrom(l0, data)
      requires log.lines == g0 + LostNotes(data)
      modifies bench`events, bench`lockinReplies, log
      ensures ReadsFrom(l0, data') && log.lines == g0 + LostNotes(data')
      ensures bench.events == e0 + sent' && Quiet(sent')
      ensures error.None? ==> (x' == Repeat(Scale(values, cf), s + 1) && |data'| == |x'|
        && sent' == Repeat(SweepEvents(call, ch, values), s + 1)
        && bench.lockinReplies == Skip(l0, |data'|))
      ensures error.Some? ==> (Interpret(AsResult(ReplyAt(l0, |data'|, Data(Silence)))) == Unreadable(error.value)
        && |data'| < |data| + |values|)
    {
      ghost var done := |data|;
      var ys, d, err := SweepOnce(call, ch, values, cf, log);
      ReadsJoin(l0, data, d);
      LostNotesJoin(data, d);
      Appended(log.lines, g0, LostNotes(data), LostNotes(d));
      SkipReplyAt(l0, done, |d|, Data(Silence));
      SkipSkip(l0, done, |d|);
      x', data', error := x + ys, data + d, err;
      ghost var step := if err.Some? then SweepEvents(call, ch, values[..|d|]) + StepEvents(call, ch, values[|d|])
                        else SweepEvents(call, ch, values);
      SweepQuiet(call, ch, values);
      RepeatQuiet(SweepEvents(call, ch, values), s);
      if err.Some? {
        PartialQuiet(call, ch, values, |d|);
      }
      Appended(bench.events, e0, sent, step);
      QuietAppend(sent, step);
      sent' := sent + step;
    }

    /** The measurement loop: `spectra` passes over `values`, each sample
      * appending one `x` and one reading. A reply that does not parse
      * raises; the readings taken so far are those of the replies in order,
      * and nothing was sent to the STM. */
    method Sweep(call: SweepCall, ch: nat, values: seq<real>, cf: real, spectra: nat, log: Log)
      returns (x: seq<real>, data: seq<Reading>, error: Option<string>, ghost sent: seq<Event>)
      requires Wired() && awg.connected && lockin.connected
      modifies bench`events, bench`lockinReplies, log
      ensures ReadsFrom(old(bench.lockinReplies), data)
      ensures log.lines == old(log.lines) + LostNotes(data)
      ensures error.None? ==> (x == Repeat(Scale(values, cf), spectra) && |data| == |x|
        && sent == Repeat(SweepEvents(call, ch, values), spectra))
      ensures error.Some? ==> Interpret(AsResult(ReplyAt(old(bench.lockinReplies), |data|, Data(Silence)))) == Unreadable(error.value)
      ensures error == FirstUnreadable(old(bench.lockinReplies), SampleCount(spectra, |values|))
      ensures bench.events == old(bench.events) + sent && Quiet(sent)
    {
      ghost var e0 := bench.events;
      ghost var l0 := bench.lockinReplies;
      ghost var g0 := log.lines;
      SkipZero(l0);
      x, data, error, sent := [], [], None, [];
      var s := 0;
      while s < spectra
        invariant 0 <= s <= spectra && error.None?
        invariant x == Repeat(Scale(values, cf), s) && |data| == |x|
        invariant sent == Repeat(SweepEvents(call, ch, values), s) && bench.events == e0 + sent
        invariant bench.lockinReplies == Skip(l0, |data|) && ReadsFrom(l0, data)
        invariant log.lines == g0 + LostNotes(data)
      {
        ghost var before := |data|;
        x, data, error, sent := SweepPass(call, ch, values, cf, log, x, data, s, l0, g0, e0, sent);
        if error.Some? {
          RepeatLength(Scale(values, cf), s);
          PassWithin(s, spectra, |values|, before, |data|);
          ReadsUntilUnreadable(l0, data, SampleCount(spectra, |values|));
          return;
        }
        s := s + 1;
      }
      RepeatLength(Scale(values, cf), s);
      ReadsUntilUnreadable(l0, data, SampleCount(spectra, |values|));
      SweepQuiet(call, ch, values);
      RepeatQuiet(SweepEvents(call, ch, values), s);
    }

    /** `run(procedure, experiment_idx, new_arb, ...)` with `spectra` passes
      * over the sweep: an index outside the experiments raises before
      * anything is sent, and a negative one counts from the end; otherwise
      * the set-up raises, or it is sent and the run goes on as
      * `FrozenOutcome` says from the log it leaves, `prepared`. */
    method Run(procedure: Procedure, idx: int, newArb: bool, spectra: nat, log: Log)
      returns (o: Outcome, ghost prepared: seq<Event>, ghost prev: Option<real>, ghost t: Tries)
      requires Wired()
      modifies bench, log
      ensures PyIndex(|procedure.experiments|, idx).None? ==> o == Raised(IndexErrorText) && bench.events == old(bench.events)
      ensures PyIndex(|procedure.experiments|, idx).Some? && PrepError(newArb, awg.connected, lockin.connected).Some? ==>
        o == Raised(PrepError(newArb, awg.connected, lockin.connected).value)
      ensures PyIndex(|procedure.experiments|, idx).Some? && PrepError(newArb, awg.connected, lockin.connected).None? ==>
        var e := procedure.experiments[PyIndex(|procedure.experiments|, idx).value];
        prepared == old(bench.events) + PrepEvents(e, newArb, awg.connected)
        && FrozenOutcome(procedure, e, spectra, awg.connected, lockin.connected, prepared,
          old(bench.stmReplies), old(bench.lockinReplies), o, bench.events, prev, t)
      ensures !o.Finished? ==> KeepsTipFrom(bench.events, |old(bench.events)|)
      ensures o.Hung? ==> bench.stmReplies == []
    {
      prepared, prev, t := [], None, Tries(0, 0, 0, 0, 0);
      var k := PyIndex(|procedure.experiments|, idx);
      if k.None? {
        o := Raised(IndexErrorText);
        return;
      }
      o, prepared, prev, t := RunExperiment(procedure, procedure.experiments[k.value], newArb, spectra, log);
    }

    /** What `run` does from the freeze on, by how it ends: a controller
      * that does not acknowledge the freeze ends the run at once with
      * nothing measured; a run that finishes after a freeze has sent the
      * freeze and the measurement, read the bias twice after the freeze
      * reply, and taken its readings from the lock-in replies after the
      * buffering one; a run that hangs got past the freeze and a bias loop
      * ran out of replies, the lowering one or, after a clean sweep, the
      * restoring one; a run raises exactly when it got past the freeze and
      * the lowering and the sweep phase raises, with `SweepError`'s
      * exception. */
    ghost predicate FrozenOutcome(p: Procedure, e: Experiment, spectra: nat, awgUp: bool, lockinUp: bool,
      events0: seq<Event>, stm0: seq<string>, lockin0: seq<Reply>,
      o: Outcome, events: seq<Event>, prev: Option<real>, t: Tries)
    {
      var error := SweepError(awgUp, lockinUp, lockin0, SampleCount(spectra, |SweepValues(e)|));
      match o
      case Finished(x, data) =>
        if Head(stm0, Silence) != "Done" then
          x == [] && data == [] && events == events0 + [Freeze()]
        else
          t.Valid() && prev == BiasBy(parse, Tail(stm0))
          && t == BiasTries(parse, Tail(stm0)) && !BiasHangs(parse, Tail(stm0))
          && error.None?
          && events == events0 + [Freeze()] + MeasureTrace(p, e, spectra, prev, t)
          && x == Repeat(Scale(SweepValues(e), p.conversionFactor), spectra)
          && |data| == |x|
          && ReadsFrom(Tail(lockin0), data)
      case Hung =>
        Head(stm0, Silence) == "Done" && BiasHangs(parse, Tail(stm0))
        && (LowerStep(parse, Tail(stm0)).back.hung || error.None?)
      case Raised(err) =>
        Head(stm0, Silence) == "Done" && !LowerStep(parse, Tail(stm0)).back.hung && error == Some(err)
    }

    /** How a run past its set-up ends is decided by the inputs alone:
      * it returns exactly when the freeze is refused, or when no bias loop
      * hangs and the sweep phase raises nothing; it raises exactly when the
      * freeze is acknowledged, the lowering goes through and the sweep
      * phase raises. */
    lemma FrozenOutcomeDecided(p: Procedure, e: Experiment, spectra: nat, awgUp: bool, lockinUp: bool,
      events0: seq<Event>, stm0: seq<string>, lockin0: seq<Reply>,
      o: Outcome, events: seq<Event>, prev: Option<real>, t: Tries)
      requires FrozenOutcome(p, e, spectra, awgUp, lockinUp, events0, stm0, lockin0, o, events, prev, t)
      ensures var error := SweepError(awgUp, lockinUp, lockin0, SampleCount(spectra, |SweepValues(e)|));
        var frozen := Head(stm0, Silence) == "Done";
        && (o.Finished? <==> !frozen || (!BiasHangs(parse, Tail(stm0)) && error.None?))
        && (o.Raised? <==> frozen && !LowerStep(parse, Tail(stm0)).back.hung && error.Some?)
        && (o.Hung? <==> frozen && (LowerStep(parse, Tail(stm0)).back.hung || (error.None? && BiasHangs(parse, Tail(stm0)))))
    {
    }

    /** With both instruments connected, every sample reply readable and
      * enough controller replies for the bias loops, a run past its
      * set-up returns normally. */
    lemma FrozenRunReturns(p: Procedure, e: Experiment, spectra: nat,
      events0: seq<Event>, stm0: seq<string>, lockin0: seq<Reply>,
      o: Outcome, events: seq<Event>, prev: Option<real>, t: Tries)
      requires FrozenOutcome(p, e, spectra, true, true, events0, stm0, lockin0, o, events, prev, t)
      requires forall k {:trigger ReplyAt(Tail(lockin0), k, Data(Silence))} :: 0 <= k < SampleCount(spectra, |SweepValues(e)|) ==>
        Interpret(AsResult(ReplyAt(Tail(lockin0), k, Data(Silence)))).Read?
      requires !BiasHangs(parse, Tail(stm0))
      ensures o.Finished?
    {
      FirstUnreadableSpec(Tail(lockin0), SampleCount(spectra, |SweepValues(e)|));
      FrozenOutcomeDecided(p, e, spectra, true, true, events0, stm0, lockin0, o, events, prev, t);
    }

    /** The body of `run` once the experiment is chosen. */
    method RunExperiment(p: Procedure, e: Experiment, newArb: bool, spectra: nat, log: Log)
      returns (o: Outcome, ghost prepared: seq<Event>, ghost prev: Option<real>, ghost t: Tries)
      requires Wired()
      modifies bench, log
      ensures PrepError(newArb, awg.connected, lockin.connected).Some? ==>
        o == Raised(PrepError(newArb, awg.connected, lockin.connected).value)
      ensures PrepError(newArb, awg.connected, lockin.connected).None? ==>
        prepared == old(bench.events) + PrepEvents(e, newArb, awg.connected)
        && var goesOn := FrozenOutcome(p, e, spectra, awg.connected, lockin.connected, prepared, old(bench.stmReplies), old(bench.lockinReplies), o, bench.events, prev, t);
        goesOn
      ensures !o.Finished? ==> KeepsTipFrom(bench.events, |old(bench.events)|)
      ensures o.Hung? ==> bench.stmReplies == []
    {
      prev, t := None, Tries(0, 0, 0, 0, 0);
      ghost var e0, s0, l0 := bench.events, bench.stmReplies, bench.lockinReplies;
      var raised := Prepare(e, newArb, |e0|, log);
      prepared := bench.events;
      if raised.Some? {
        o := Raised(raised.value);
        return;
      }
      assert bench.stmReplies == s0 && bench.lockinReplies == l0;
      o, prev, t := FreezeAndMeasure(p, e, spectra, |e0|, log);
    }

    /** Freezing the tip, and the measurement when it freezes. */
    method FreezeAndMeasure(p: Procedure, e: Experiment, spectra: nat, ghost from: nat, log: Log)
      returns (o: Outcome, ghost prev: Option<real>, ghost t: Tries)
      requires Wired() && KeepsTipFrom(bench.events, from)
      modifies bench, log
      ensures FrozenOutcome(p, e, spectra, awg.connected, lockin.connected,
        old(bench.events), old(bench.stmReplies), old(bench.lockinReplies), o, bench.events, prev, t)
      ensures !o.Finished? ==> KeepsTipFrom(bench.events, from)
      ensures o.Hung? ==> bench.stmReplies == []
    {
      prev, t := None, Tries(0, 0, 0, 0, 0);
      var frozen := FreezeTip(from, log);
      if !frozen {
        o := Finished([], []);
        return;
      }
      var previous;
      o, previous, t := Measure(p, e, spectra, from, log);
      prev := previous;
    }

    /** `set_tip_control("freeze")`, reported. The tip is frozen only when
      * the controller acknowledges with `Done`. */
    method FreezeTip(ghost from: nat, log: Log) returns (frozen: bool)
      requires Wired() && KeepsTipFrom(bench.events, from)
      modifies bench`events, bench`stmReplies, log
      ensures bench.events == old(bench.events) + [Freeze()]
      ensures bench.stmReplies == Tail(old(bench.stmReplies))
      ensures frozen <==> Head(old(bench.stmReplies), Silence) == "Done"
      ensures KeepsTipFrom(bench.events, from)
      ensures log.lines == old(log.lines) + TipNote("Freeze", Head(old(bench.stmReplies), Silence))
    {
      ghost var e0 := bench.events;
      var r := stm.SetTipControl("freeze", log);
      TipModes();
      KeepsTipAppend(e0, from, [Freeze()]);
      r.Report(log);
      frozen := !r.err;
    }

    /** `prev_bias = get_bias()`, then the minimum bias set and read back,
      * as `ConfirmOf` says for the replies after the reads behind
      * `prev_bias`. Nothing here releases the tip. */
    method LowerBias(ghost from: nat, log: Log)
      returns (hung: bool, prev: Option<real>, ghost first: nat, ghost sets: nat, ghost polls: nat)
      requires Wired() && KeepsTipFrom(bench.events, from)
      modifies bench`events, bench`stmReplies, log
      ensures prev == BiasBy(parse, old(bench.stmReplies)) && first == PollsBy(parse, old(bench.stmReplies))
      ensures var c := ConfirmOf(parse, Skip(old(bench.stmReplies), first), Some(BiasMin));
        sets == c.sets && polls == c.back.polls && hung == c.back.hung
      ensures bench.events == old(bench.events)
        + (Repeat([ToStm(GetBiasMsg)], first) + Repeat([ToStm(SetBiasMsg(Num(BiasMin)))], sets) + Repeat([ToStm(GetBiasMsg)], polls))
      ensures KeepsTipFrom(bench.events, from)
      ensures hung ==> bench.stmReplies == []
      ensures !hung ==> bench.stmReplies == Skip(old(bench.stmReplies), first + sets + polls)
      ensures log.lines == old(log.lines) + SetNotes(stm.show, Num(BiasMin), Skip(old(bench.stmReplies), first), sets)
    {
      ghost var e0 := bench.events;
      ghost var s0 := bench.stmReplies;
      var raised;
      prev, raised := stm.GetBias();
      ReadsLikeFloat(parse, s0);
      first := PollsBy(parse, s0);
      hung, sets, polls := LowerAfter(from, log, s0, e0, first);
    }

    /** The rest of the bias lowering, once `first` bias reads have been made on
      * the replies `s0`. */
    method LowerAfter(ghost from: nat, log: Log, ghost s0: seq<string>, ghost e0: seq<Event>, ghost first: nat)
      returns (hung: bool, ghost sets: nat, ghost polls: nat)
      requires Wired() && KeepsTipFrom(e0, from)
      requires bench.events == e0 + Repeat([ToStm(GetBiasMsg)], first)
      requires bench.stmReplies == Skip(s0, first)
      modifies bench`events, bench`stmReplies, log
      ensures var c := ConfirmOf(parse, Skip(s0, first), Some(BiasMin));
        sets == c.sets && polls == c.back.polls && hung == c.back.hung
      ensures bench.events == e0
        + (Repeat([ToStm(GetBiasMsg)], first) + Repeat([ToStm(SetBiasMsg(Num(BiasMin)))], sets) + Repeat([ToStm(GetBiasMsg)], polls))
      ensures KeepsTipFrom(bench.events, from)
      ensures hung ==> bench.stmReplies == []
      ensures !hung ==> bench.stmReplies == Skip(s0, first + sets + polls)
      ensures log.lines == old(log.lines) + SetNotes(stm.show, Num(BiasMin), Skip(s0, first), sets)
    {
      var reading;
      hung, reading, sets, polls := ConfirmBias(Some(BiasMin), log);
      if !hung {
        SkipSkip(s0, first, sets + polls);
      }
      LowerKeepsTip(e0, from, first, sets, polls, bench.events);
    }

    /** Channel 1 on, the buffering exchange, the passes and channel 1 off.
      * Nothing here goes to the STM. */
    method SweepPhase(p: Procedure, e: Experiment, spectra: nat, ghost from: nat, log: Log)
      returns (x: seq<real>, data: seq<Reading>, raised: Option<string>)
      requires Wired() && KeepsTipFrom(bench.events, from)
      modifies bench`events, bench`lockinReplies, log
      ensures KeepsTipFrom(bench.events, from)
      ensures raised.None? ==> (bench.events == old(bench.events) + SweepTrace(p, e, spectra)
        && x == Repeat(Scale(SweepValues(e), p.conversionFactor), spectra) && |data| == |x|)
      ensures ReadsFrom(Tail(old(bench.lockinReplies)), data)
      ensures raised == SweepError(awg.connected, lockin.connected, old(bench.lockinReplies), SampleCount(spectra, |SweepValues(e)|))
    {
      ghost var e0 := bench.events;
      x, data := [], [];
      raised := SwitchOn(from, log);
      if raised.Some? {
        return;
      }
      ghost var switchOn := [ToAwg(OutputCmd(1, true))] + [ToLockIn("X.")];
      ghost var e1 := bench.events;
      ghost var sent;
      x, data, raised, sent := Sweep(p.call, p.channel.Number(), SweepValues(e), p.conversionFactor, spectra, log);
      KeepsTipGrown(e1, sent, from);
      if raised.Some? {
        return;
      }
      Appended(bench.events, e0, switchOn, sent);
      ghost var e2 := bench.events;
      var closed := awg.CloseChannel(1);
      closed.value.Report(log);
      KeepsTipGrown(e2, [ToAwg(OutputCmd(1, false))], from);
      Appended(bench.events, e0, switchOn + sent, [ToAwg(OutputCmd(1, false))]);
    }

    /** The start of the phase sweep: channel 1 opened, then the buffering
      * request and its reply. */
    method SwitchOn(ghost from: nat, log: Log) returns (raised: Option<string>)
      requires Wired() && KeepsTipFrom(bench.events, from)
      modifies bench`events, bench`lockinReplies, log
      ensures KeepsTipFrom(bench.events, from)
      ensures raised == SwitchOnError(awg.connected, lockin.connected)
      ensures raised.None? ==>
        bench.events == old(bench.events) + ([ToAwg(OutputCmd(1, true))] + [ToLockIn("X.")])
        && bench.lockinReplies == Tail(old(bench.lockinReplies))
      ensures raised.None? ==> (log.lines == old(log.lines) + ["[" + awg.id + "] Sent 'OUTPut1 ON'"]
        + (if AsResult(Head(old(bench.lockinReplies), Data(Silence))).err then ["Initial buffering message not received"] else [])
        + ["Beginning pump-probe procedure"])
    {
      ghost var e0 := bench.events;
      raised := OpenOutput(log);
      if raised.Some? {
        return;
      }
      raised := AwaitBuffering(log);
      if raised.Some? {
        return;
      }
      ghost var switchOn := [ToAwg(OutputCmd(1, true))] + [ToLockIn("X.")];
      assert Quiet(switchOn);
      Appended(bench.events, e0, [ToAwg(OutputCmd(1, true))], [ToLockIn("X.")]);
      KeepsTipGrown(e0, switchOn, from);
    }

    /** The AWG half of `SwitchOn`: `open_channel(1).report()`, which
      * raises on the missing AWG's `None`. */
    method OpenOutput(log: Log) returns (raised: Option<string>)
      requires Wired()
      modifies bench`events, log
      ensures raised == (if awg.connected then None else Some(NoneAttribute("report")))
      ensures raised.Some? ==> bench.events == old(bench.events) && log.lines == old(log.lines)
      ensures raised.None? ==> (bench.events == old(bench.events) + [ToAwg(OutputCmd(1, true))]
        && log.lines == old(log.lines) + ["[" + awg.id + "] Sent 'OUTPut1 ON'"])
    {
      var switchedOn := awg.OpenChannel(1);
      if switchedOn.None? {
        return Some(NoneAttribute("report"));
      }
      assert NatText(1) == "1";
      assert switchedOn.value.msg == "[" + awg.id + "] Sent 'OUTPut1 ON'";
      switchedOn.value.Report(log);
      raised := None;
    }

    /** The lock-in half of `SwitchOn`: the `X.` request, its reply and the
      * announcement that the procedure begins. */
    method AwaitBuffering(log: Log) returns (raised: Option<string>)
      requires Wired()
      modifies bench`events, bench`lockinReplies, log
      ensures raised == (if lockin.connected then None else Some(NoneAttribute("expected")))
      ensures raised.Some? ==> bench.events == old(bench.events) && log.lines == old(log.lines)
      ensures raised.None? ==>
        bench.events == old(bench.events) + [ToLockIn("X.")]
        && bench.lockinReplies == Tail(old(bench.lockinReplies))
        && log.lines == old(log.lines)
          + (if AsResult(Head(old(bench.lockinReplies), Data(Silence))).err then ["Initial buffering message not received"] else [])
          + ["Beginning pump-probe procedure"]
    {
      var buffering := lockin.Send("X.");
      if buffering.None? {
        return Some(NoneAttribute("expected"));
      }
      var _ := buffering.value.Expected("Initial buffering message not sent", log);
      var got := lockin.Recv();
      var _ := got.value.Expected("Initial buffering message not received", log);
      log.lines := log.lines + ["Beginning pump-probe procedure"];
      raised := None;
    }

    /** `set_bias(prev_bias)` until acknowledged, the read-back, and only
      * then `set_tip_control("unlimit")`; the loops go as `ConfirmOf` says. */
    method RestoreBias(prev: Option<real>, ghost from: nat, log: Log)
      returns (hung: bool, ghost sets: nat, ghost polls: nat)
      requires Wired() && KeepsTipFrom(bench.events, from)
      modifies bench`events, bench`stmReplies, log
      ensures var c := ConfirmOf(parse, old(bench.stmReplies), prev);
        sets == c.sets && polls == c.back.polls && hung == c.back.hung
      ensures hung ==> (KeepsTipFrom(bench.events, from) && bench.stmReplies == []
        && log.lines == old(log.lines) + SetNotes(stm.show, ArgOf(prev), old(bench.stmReplies), sets))
      ensures !hung ==> (ReplyAt(old(bench.stmReplies), sets - 1, Silence) == "Done"
        && bench.events == old(bench.events) + RestoreTrace(prev, Tries(1, 1, 1, sets, polls))
        && bench.stmReplies == Tail(Skip(old(bench.stmReplies), sets + polls))
        && log.lines == old(log.lines) + SetNotes(stm.show, ArgOf(prev), old(bench.stmReplies), sets)
          + TipNote("Unlimit", ReplyAt(old(bench.stmReplies), sets + polls, Silence)))
    {
      ghost var e0 := bench.events;
      ghost var s0 := bench.stmReplies;
      ghost var g0 := log.lines;
      var reading;
      hung, reading, sets, polls := ConfirmBias(prev, log);
      ghost var reset := Repeat([ToStm(SetBiasMsg(ArgOf(prev)))], sets);
      ghost var reread := Repeat([ToStm(GetBiasMsg)], polls);
      Appended(bench.events, e0, reset, reread);
      if hung {
        BiasKeepsTip(ArgOf(prev), sets, polls);
        KeepsTipAppend(e0, from, reset + reread);
        return;
      }
      ReleaseAfter(prev, log, s0, e0, g0, sets, polls);
    }

    /** The last step of the bias restore: once the bias is confirmed, the tip
      * is released; `sets` and `polls` are what the confirmation used. */
    method ReleaseAfter(prev: Option<real>, log: Log, ghost s0: seq<string>, ghost e0: seq<Event>,
        ghost g0: seq<string>, ghost sets: nat, ghost polls: nat)
      requires Wired()
      requires bench.events == e0 + (Repeat([ToStm(SetBiasMsg(ArgOf(prev)))], sets) + Repeat([ToStm(GetBiasMsg)], polls))
      requires bench.stmReplies == Skip(s0, sets + polls)
      requires log.lines == g0 + SetNotes(stm.show, ArgOf(prev), s0, sets)
      modifies bench`events, bench`stmReplies, log
      ensures bench.events == e0 + RestoreTrace(prev, Tries(1, 1, 1, sets, polls))
      ensures bench.stmReplies == Tail(Skip(s0, sets + polls))
      ensures log.lines == g0 + SetNotes(stm.show, ArgOf(prev), s0, sets)
        + TipNote("Unlimit", ReplyAt(s0, sets + polls, Silence))
    {
      SkipReplyAt(s0, sets + polls, 0, Silence);
      ReleaseTip(log);
      Appended(bench.events, e0, Repeat([ToStm(SetBiasMsg(ArgOf(prev)))], sets) + Repeat([ToStm(GetBiasMsg)], polls), [Release()]);
    }

    /** `set_tip_control("unlimit")`, reported: the tip goes back to the
      * feedback loop. */
    method ReleaseTip(log: Log)
      requires Wired()
      modifies bench`events, bench`stmReplies, log
      ensures bench.events == old(bench.events) + [Release()]
      ensures bench.stmReplies == Tail(old(bench.stmReplies))
      ensures log.lines == old(log.lines) + TipNote("Unlimit", Head(old(bench.stmReplies), Silence))
    {
      TipModes();
      var released := stm.SetTipControl("unlimit", log);
      released.Report(log);
    }

    /** Everything after the tip is frozen. */
    method Measure(p: Procedure, e: Experiment, spectra: nat, ghost from: nat, log: Log)
      returns (o: Outcome, prev: Option<real>, ghost t: Tries)
      requires Wired() && KeepsTipFrom(bench.events, from)
      modifies bench, log
      ensures o.Finished? ==> (t.Valid() && prev == BiasBy(parse, old(bench.stmReplies))
        && bench.events == old(bench.events) + MeasureTrace(p, e, spectra, prev, t)
        && o.x == Repeat(Scale(SweepValues(e), p.conversionFactor), spectra)
        && |o.data| == |o.x|
        && ReadsFrom(Tail(old(bench.lockinReplies)), o.data))
      ensures o.Finished? ==> (t == BiasTries(parse, old(bench.stmReplies)) && !BiasHangs(parse, old(bench.stmReplies)))
      ensures !o.Finished? ==> KeepsTipFrom(bench.events, from)
      ensures o.Hung? ==> (BiasHangs(parse, old(bench.stmReplies)) && bench.stmReplies == [])
      ensures var error := SweepError(awg.connected, lockin.connected, old(bench.lockinReplies), SampleCount(spectra, |SweepValues(e)|));
        && (o.Raised? <==> !LowerStep(parse, old(bench.stmReplies)).back.hung && error.Some?)
        && (o.Raised? ==> Some(o.error) == error)
        && (o.Finished? ==> error.None?)
        && (o.Hung? ==> LowerStep(parse, old(bench.stmReplies)).back.hung || error.None?)
    {
      ghost var e0 := bench.events;
      ghost var s0 := bench.stmReplies;
      t := Tries(0, 0, 0, 0, 0);
      var hung;
      ghost var first, lowerSets, lowerReads;
      hung, prev, first, lowerSets, lowerReads := LowerBias(from, log);
      ghost var lower := ConfirmOf(parse, Skip(s0, first), Some(BiasMin));
      if hung {
        StepsOf(parse, s0, first, lower, ConfirmOf(parse, Skip(s0, first + Used(lower)), prev));
        return Hung, prev, t;
      }
      ghost var s1 := bench.stmReplies;
      assert first + Used(lower) == first + lowerSets + lowerReads;
      assert s1 == Skip(s0, first + Used(lower));
      ghost var e1 := bench.events;
      ghost var restoreSets, restoreReads;
      o, restoreSets, restoreReads := SweepAndRestore(p, e, spectra, prev, from, log);
      if o.Raised? {
        return o, prev, t;
      }
      StepsOf(parse, s0, first, lower, ConfirmOf(parse, s1, prev));
      if o.Hung? {
        return o, prev, t;
      }
      t := Tries(first, lowerSets, lowerReads, restoreSets, restoreReads);
      TriesValid(parse, s0);
      assert RestoreTrace(prev, Tries(1, 1, 1, restoreSets, restoreReads)) == RestoreTrace(prev, t);
      Appended2(bench.events, e0, LowerTrace(t), SweepTrace(p, e, spectra), RestoreTrace(prev, t));
    }

    /** What `run` does once the bias is lowered: the sweep, then, unless it
      * raised, `prev_bias` restored as `ConfirmOf` tells it. */
    method SweepAndRestore(p: Procedure, e: Experiment, spectra: nat, prev: Option<real>, ghost from: nat, log: Log)
      returns (o: Outcome, ghost sets: nat, ghost polls: nat)
      requires Wired() && KeepsTipFrom(bench.events, from)
      modifies bench, log
      ensures o.Raised? <==> SweepError(awg.connected, lockin.connected, old(bench.lockinReplies), SampleCount(spectra, |SweepValues(e)|)).Some?
      ensures o.Raised? ==> Some(o.error) == SweepError(awg.connected, lockin.connected, old(bench.lockinReplies), SampleCount(spectra, |SweepValues(e)|))
      ensures o.Raised? || (var c := ConfirmOf(parse, old(bench.stmReplies), prev);
        sets == c.sets && polls == c.back.polls && (o.Hung? <==> c.back.hung))
      ensures o.Finished? ==> (bench.events == old(bench.events) + SweepTrace(p, e, spectra) + RestoreTrace(prev, Tries(1, 1, 1, sets, polls))
        && o.x == Repeat(Scale(SweepValues(e), p.conversionFactor), spectra)
        && |o.data| == |o.x|
        && ReadsFrom(Tail(old(bench.lockinReplies)), o.data))
      ensures !o.Finished? ==> KeepsTipFrom(bench.events, from)
      ensures o.Hung? ==> bench.stmReplies == []
    {
      ghost var s1 := bench.stmReplies;
      var x, data, raised := SweepPhase(p, e, spectra, from, log);
      if raised.Some? {
        return Raised(raised.value), 0, 0;
      }
      assert bench.stmReplies == s1;
      var hung;
      hung, sets, polls := RestoreBias(prev, from, log);
      if hung {
        return Hung, sets, polls;
      }
      o := Finished(x, data);
    }
  }
}
