/** The phase sweep both application runners carry a copy of
  * (src/pump_probe.py and src/pumpprobe.py): for each phase, set it on the
  * sweep channel, wait, ask the lock-in for its X output and parse the
  * answer; before the first reading one extra answer is read and dropped.
  * The two copies differ only in the channel and in the time offset taken
  * off each delay, so they are this one loop. */
module PhaseSweep {
  import opened Results
  import opened Transport
  import opened Devices
  import PumpProbe

  /** One parsed lock-in answer, or the exception parsing it raises. */
  datatype Sample = Number(v: real) | Raises(error: string)

  /** The exception `X.split()` raises when the receive failed: `X` is then
    * still the Result, which has no `split`. */
  const NoSplit: string := "AttributeError(\"'Result' object has no attribute 'split'\")"

  /** What `.expected(...)` on a None handle result raises. */
  function NoneExpected(): string { NoneAttribute("expected") }

  const BufferLost: string := "Initial buffering message not received."
  const XLost: string := "X value not recieved from Lockin"

  /** `float(X.result().decode().split()[0])`; a failed receive raises
    * instead of being recorded. */
  function ReadX(y: Result): Sample {
    if y.err then Raises(NoSplit)
    else
      match PumpProbe.Interpret(y)
      case Unreadable(e) => Raises(e)
      case Read(r) => if r.Value? then Number(r.v) else Raises(r.msg)
  }

  /** A received answer that starts with a number reads as that number; a
    * failed receive raises, where the packaged runner records it. */
  lemma ReadXAnswers(n: nat, rest: string, error: string)
    requires rest == [] || Text.IsSpace(rest[0])
    ensures ReadX(Result(Text.NatText(n) + rest, false)) == Number(n as real)
    ensures ReadX(Result(error, true)) == Raises(NoSplit)
    ensures PumpProbe.Interpret(Result(error, true)).Read?
  {
    PumpProbe.InterpretNumber(n, rest);
  }

  /** On a received answer the application's parse and the packaged
    * runner's agree: the same number, or the same exception. */
  lemma ReadXAgrees(y: Result)
    requires !y.err
    ensures ReadX(y).Number? <==> PumpProbe.Interpret(y).Read?
    ensures ReadX(y).Number? ==> PumpProbe.Interpret(y) == PumpProbe.Read(PumpProbe.Value(ReadX(y).v))
    ensures ReadX(y).Raises? ==> PumpProbe.Interpret(y) == PumpProbe.Unreadable(ReadX(y).error)
  {
  }

  // ------------------------------------------------------------ traces

  /** What one iteration sends: the phase write and `*WAI` to the AWG, then
    * the `X.` request, twice on the first iteration. */
  function PhaseStep(ch: nat, v: real, first: bool): seq<Event> {
    Awgs([PhaseCmd(ch, v), Wai]) + (if first then [ToLockIn("X."), ToLockIn("X.")] else [ToLockIn("X.")])
  }

  /** What a sweep over `vs` sends, iteration by iteration. */
  function PhaseSteps(ch: nat, vs: seq<real>): seq<Event>
    decreases |vs|
  {
    if vs == [] then [] else PhaseSteps(ch, vs[..|vs| - 1]) + PhaseStep(ch, vs[|vs| - 1], |vs| == 1)
  }

  /** Where iteration `i`'s phase write sits in the trace. */
  function StepStart(i: nat): nat { if i == 0 then 0 else 3 * i + 1 }

  /** The layout of a sweep's trace: iteration `i` is the write of `vs[i]`,
    * one `*WAI` and one `X.` request, and the first iteration alone has a
    * second `X.`; nothing else is sent. */
  lemma {:induction false} PhaseStepsLayout(ch: nat, vs: seq<real>)
    ensures |PhaseSteps(ch, vs)| == if vs == [] then 0 else 3 * |vs| + 1
    ensures forall i :: 0 <= i < |vs| ==>
      PhaseSteps(ch, vs)[StepStart(i)] == ToAwg(PhaseCmd(ch, vs[i])) &&
      PhaseSteps(ch, vs)[StepStart(i) + 1] == ToAwg(Wai) &&
      PhaseSteps(ch, vs)[StepStart(i) + 2] == ToLockIn("X.")
    ensures vs != [] ==> PhaseSteps(ch, vs)[3] == ToLockIn("X.")
    decreases |vs|
  {
    if vs != [] {
      var n := |vs| - 1;
      var init := vs[..n];
      PhaseStepsLayout(ch, init);
      var t := PhaseSteps(ch, vs);
      var step := PhaseStep(ch, vs[n], n == 0);
      assert t == PhaseSteps(ch, init) + step;
      assert |PhaseSteps(ch, init)| == StepStart(n);
      forall i | 0 <= i < |vs|
        ensures t[StepStart(i)] == ToAwg(PhaseCmd(ch, vs[i]))
        ensures t[StepStart(i) + 1] == ToAwg(Wai) && t[StepStart(i) + 2] == ToLockIn("X.")
      {
        if i < n {
          assert vs[i] == init[i];
        }
      }
    }
  }

  /** A sweep talks to the AWG and the lock-in only, never to the STM. */
  lemma {:induction false} PhaseStepsOffStm(ch: nat, vs: seq<real>)
    ensures forall i :: 0 <= i < |PhaseSteps(ch, vs)| ==> !PhaseSteps(ch, vs)[i].ToStm?
    decreases |vs|
  {
    if vs != [] {
      var init: seq<Event> := PhaseSteps(ch, vs[..|vs| - 1]);
      var step: seq<Event> := PhaseStep(ch, vs[|vs| - 1], |vs| == 1);
      PhaseStepsOffStm(ch, vs[..|vs| - 1]);
      forall i | 0 <= i < |init + step|
        ensures !(init + step)[i].ToStm?
      {
        if i >= |init| {
          assert (init + step)[i] == step[i - |init|];
        }
      }
    }
  }

  /** A sweep over one more phase sends one more iteration. */
  lemma PhaseStepsSnoc(ch: nat, vs: seq<real>, v: real)
    ensures PhaseSteps(ch, vs + [v]) == PhaseSteps(ch, vs) + PhaseStep(ch, v, vs == [])
  {
    assert (vs + [v])[..|vs|] == vs;
  }

  // ----------------------------------------------------------- readings

  /** The outcome of the readings: all of them, or the exception of the
    * first answer that does not parse and the iteration it stopped at. */
  datatype Readings = Values(xs: seq<real>) | Stopped(error: string, at: nat)

  /** What the loop makes of the parsed answers, one per iteration: it
    * stops at the first exception. */
  function Outcome(samples: seq<Sample>): Readings
    decreases |samples|
  {
    if samples == [] then Values([])
    else
      var n := |samples| - 1;
      match Outcome(samples[..n])
      case Stopped(e, k) => Stopped(e, k)
      case Values(xs) =>
        match samples[n]
        case Number(v) => Values(xs + [v])
        case Raises(e) => Stopped(e, n)
  }

  /** One more iteration. */
  lemma OutcomeSnoc(samples: seq<Sample>, s: Sample)
    ensures Outcome(samples + [s]) == match Outcome(samples)
      case Stopped(e, k) => Stopped(e, k)
      case Values(xs) => (match s case Number(v) => Values(xs + [v]) case Raises(e) => Stopped(e, |samples|))
  {
    assert (samples + [s])[..|samples|] == samples;
  }

  /** The loop yields one value per iteration, each its own answer's
    * number, exactly when every answer parses; otherwise it stops at the
    * first that does not, with that answer's exception. */
  lemma {:induction false} OutcomeSpec(samples: seq<Sample>)
    ensures Outcome(samples).Values? ==> (|Outcome(samples).xs| == |samples| &&
      forall k :: 0 <= k < |samples| ==> samples[k] == Number(Outcome(samples).xs[k]))
    ensures Outcome(samples).Stopped? ==> (Outcome(samples).at < |samples| &&
      samples[Outcome(samples).at] == Raises(Outcome(samples).error) &&
      forall k :: 0 <= k < Outcome(samples).at ==> samples[k].Number?)
    ensures Outcome(samples).Values? <==> forall k :: 0 <= k < |samples| ==> samples[k].Number?
    decreases |samples|
  {
    if samples != [] {
      var n := |samples| - 1;
      var init := samples[..n];
      OutcomeSpec(init);
      assert forall k :: 0 <= k < n ==> init[k] == samples[k];
      match Outcome(init)
      case Stopped(e, k) =>
      case Values(xs) =>
        match samples[n]
        case Number(v) =>
          forall k | 0 <= k < |samples|
            ensures samples[k] == Number((xs + [v])[k])
          {
            if k < n {
              assert (xs + [v])[k] == xs[k];
            }
          }
        case Raises(e) =>
    }
  }

  /** Once the loop stops, more iterations change nothing. */
  lemma {:induction false} OutcomeStay(samples: seq<Sample>, m: nat)
    requires m <= |samples| && Outcome(samples[..m]).Stopped?
    ensures Outcome(samples) == Outcome(samples[..m])
    decreases |samples| - m
  {
    if m < |samples| {
      var n := |samples| - 1;
      assert samples[..n][..m] == samples[..m];
      OutcomeStay(samples[..n], m);
      assert Outcome(samples[..n]).Stopped?;
      assert Outcome(samples) == Outcome(samples[..n]);
    } else {
      assert samples[..m] == samples;
    }
  }

  /** The loop's bookkeeping for iteration `i`: a number extends the
    * values, an exception is the outcome. */
  lemma OutcomeStep(samples: seq<Sample>, i: nat, data: seq<real>)
    requires i < |samples| && Outcome(samples[..i]) == Values(data)
    ensures samples[i].Number? ==> Outcome(samples[..i + 1]) == Values(data + [samples[i].v])
    ensures samples[i].Raises? ==> Outcome(samples) == Stopped(samples[i].error, i)
  {
    assert samples[..i + 1] == samples[..i] + [samples[i]];
    OutcomeSnoc(samples[..i], samples[i]);
    if samples[i].Raises? {
      OutcomeStay(samples, i + 1);
    }
  }

  /** The answer iteration `k` parses: answer 0 is the dropped one. */
  function AnswerFor(script: seq<Reply>, k: nat): Result {
    AsResult(ReplyAt(script, k + 1, Data(Silence)))
  }

  /** The first `n` answers the loop parses, as `parse` parses them. */
  function Answers(script: seq<Reply>, n: nat, parse: Result -> Sample): (samples: seq<Sample>)
    ensures |samples| == n
  {
    seq(n, k requires 0 <= k < n => parse(AnswerFor(script, k)))
  }

  /** Iteration `i` parses answer `i`. */
  lemma AnswersAt(script: seq<Reply>, n: nat, parse: Result -> Sample, i: nat)
    requires i < n
    ensures Answers(script, n, parse)[i] == parse(AnswerFor(script, i))
  {
  }

  /** Lock-in answers consumed after `i` iterations. */
  function Consumed(i: nat): nat { if i == 0 then 0 else i + 1 }

  /** The console line the dropped first answer leaves when its receive
    * failed. */
  function BufferNote(script: seq<Reply>, i: nat): seq<string> {
    if i > 0 && AsResult(ReplyAt(script, 0, Data(Silence))).err then [BufferLost] else []
  }

  /** `(t - offset) * sample_rate` with `t = phase * (time_spread / 360)`. */
  function DelayOf(phase: real, timeSpread: real, offset: real, rate: real): real {
    (phase * (timeSpread / 360.0) - offset) * rate
  }

  /** The delays of a whole sweep. */
  function Delays(phases: seq<real>, timeSpread: real, offset: real, rate: real): (dt: seq<real>)
    ensures |dt| == |phases|
  {
    seq(|phases|, i requires 0 <= i < |phases| => DelayOf(phases[i], timeSpread, offset, rate))
  }

  /** A whole phase range maps onto a whole time-spread: phases of plus and
    * minus 180 degrees are half a period after and before the offset. */
  lemma DelayHalfPeriod(timeSpread: real, offset: real, rate: real)
    ensures DelayOf(180.0, timeSpread, offset, rate) == (timeSpread / 2.0 - offset) * rate
    ensures DelayOf(-180.0, timeSpread, offset, rate) == (-timeSpread / 2.0 - offset) * rate
    ensures DelayOf(180.0, timeSpread, offset, rate) - DelayOf(-180.0, timeSpread, offset, rate) == timeSpread * rate
  {
    assert 180.0 * (timeSpread / 360.0) == timeSpread / 2.0;
    assert -180.0 * (timeSpread / 360.0) == -timeSpread / 2.0;
    assert (timeSpread / 2.0 - offset) * rate - (-timeSpread / 2.0 - offset) * rate == timeSpread * rate;
  }

  // ------------------------------------------------------------- methods

  /** The lock-in half of an iteration: the dropped answer on the first
    * iteration, then the X request and its answer, which comes back as
    * received. `.expected` raises on the None a missing socket gives back. */
  method RequestX(lockin: LockIn, first: bool, log: Log) returns (x: Option<Result>)
    modifies lockin.bench`events, lockin.bench`lockinReplies, log
    ensures !lockin.connected ==> (x == None &&
      lockin.bench.events == old(lockin.bench.events) && lockin.bench.lockinReplies == old(lockin.bench.lockinReplies) &&
      log.lines == old(log.lines))
    ensures lockin.connected ==> (
      var j := if first then 1 else 0;
      var answer := AsResult(ReplyAt(old(lockin.bench.lockinReplies), j, Data(Silence)));
      x == Some(answer) &&
      lockin.bench.events == old(lockin.bench.events) + (if first then [ToLockIn("X."), ToLockIn("X.")] else [ToLockIn("X.")]) &&
      lockin.bench.lockinReplies == Skip(old(lockin.bench.lockinReplies), j + 1) &&
      log.lines == old(log.lines) + BufferNote(old(lockin.bench.lockinReplies), j) + (if answer.err then [XLost] else []))
  {
    ghost var s0 := lockin.bench.lockinReplies;
    if !lockin.connected {
      return None;
    }
    SkipZero(s0);
    SkipStep(s0, 0, Data(Silence));
    SkipStep(s0, 1, Data(Silence));
    if first {
      var sent := lockin.Send("X.");
      var _ := sent.value.Expected("Initial buffering message not sent.", log);
      var got := lockin.Recv();
      var _ := got.value.Expected(BufferLost, log);
    }
    var sent := lockin.Send("X.");
    var _ := sent.value.Expected("Request for X value not sent to Lockin", log);
    var y := lockin.Recv();
    var answer := y.value.Expected(XLost, log);
    x := Some(answer);
  }

  /** One iteration: the phase write and `*WAI`, then the lock-in half. The
    * writes' results are never errors, so their `.expected` only matters
    * when the AWG handle is None, and then it raises. */
  method SampleX(awg: Awg, lockin: LockIn, ch: nat, v: real, first: bool, log: Log) returns (x: Option<Result>)
    requires awg.bench == lockin.bench
    modifies awg.bench`events, awg.bench`lockinReplies, log
    ensures !awg.connected ==> (x == None &&
      awg.bench.events == old(awg.bench.events) && awg.bench.lockinReplies == old(awg.bench.lockinReplies) &&
      log.lines == old(log.lines))
    ensures awg.connected && !lockin.connected ==> (x == None &&
      awg.bench.events == old(awg.bench.events) + Awgs([PhaseCmd(ch, v), Wai]) &&
      awg.bench.lockinReplies == old(awg.bench.lockinReplies) && log.lines == old(log.lines))
    ensures awg.connected && lockin.connected ==> (
      var j := if first then 1 else 0;
      var answer := AsResult(ReplyAt(old(awg.bench.lockinReplies), j, Data(Silence)));
      x == Some(answer) &&
      awg.bench.events == old(awg.bench.events) + PhaseStep(ch, v, first) &&
      awg.bench.lockinReplies == Skip(old(awg.bench.lockinReplies), j + 1) &&
      log.lines == old(log.lines) + BufferNote(old(awg.bench.lockinReplies), j) + (if answer.err then [XLost] else []))
  {
    var w := awg.Write(PhaseCmd(ch, v));
    if w.None? {
      return None;
    }
    var _ := awg.Wait();
    x := RequestX(lockin, first, log);
  }

  /** Where a sweep leaves things: the delays and values it hands back
    * (empty when it raises, since the exception loses them), the exception,
    * and the bench and the console afterwards. */
  datatype SweepEnd = SweepEnd(dt: seq<real>, data: seq<real>, raised: Option<string>,
                               events: seq<Event>, replies: seq<Reply>, lines: seq<string>)

  /** A sweep with both handles in place, from trace `e0`, lock-in script
    * `s0` and console `l0`: all delays and values and the whole trace, or
    * the first exception and the trace up to its iteration. */
  function Swept(parse: Result -> Sample, s0: seq<Reply>, l0: seq<string>, e0: seq<Event>, ch: nat, phases: seq<real>,
                 timeSpread: real, offset: real, rate: real): SweepEnd
  {
    match Outcome(Answers(s0, |phases|, parse))
    case Values(xs) =>
      SweepEnd(Delays(phases, timeSpread, offset, rate), xs, None,
               e0 + PhaseSteps(ch, phases), Skip(s0, Consumed(|phases|)), l0 + BufferNote(s0, |phases|))
    case Stopped(e, k) =>
      // k < |phases| always (OutcomeSpec); the guard only keeps the slice in range
      var m := if k < |phases| then k + 1 else |phases|;
      SweepEnd([], [], Some(e), e0 + PhaseSteps(ch, phases[..m]), Skip(s0, m + 1),
               l0 + BufferNote(s0, m) + (if AnswerFor(s0, k).err then [XLost] else []))
  }

  /** A sweep returns normally exactly when every answer parses, and then
    * hands back one delay and one value per phase, value `k` being answer
    * `k`'s; otherwise it raises the exception of the first answer that does
    * not parse, after sending that iteration and nothing more. */
  lemma SweptSpec(parse: Result -> Sample, s0: seq<Reply>, l0: seq<string>, e0: seq<Event>, ch: nat, phases: seq<real>,
                  timeSpread: real, offset: real, rate: real)
    ensures var r := Swept(parse, s0, l0, e0, ch, phases, timeSpread, offset, rate);
      r.raised.None? <==> forall k :: 0 <= k < |phases| ==> parse(AnswerFor(s0, k)).Number?
    ensures var r := Swept(parse, s0, l0, e0, ch, phases, timeSpread, offset, rate);
      r.raised.None? ==> (|r.dt| == |phases| && |r.data| == |phases| && r.events == e0 + PhaseSteps(ch, phases) &&
        forall k :: 0 <= k < |phases| ==>
          r.data[k] == parse(AnswerFor(s0, k)).v && r.dt[k] == DelayOf(phases[k], timeSpread, offset, rate))
    ensures var r := Swept(parse, s0, l0, e0, ch, phases, timeSpread, offset, rate);
      r.raised.Some? ==>
        exists k :: 0 <= k < |phases| && parse(AnswerFor(s0, k)) == Raises(r.raised.value) &&
                    (forall j :: 0 <= j < k ==> parse(AnswerFor(s0, j)).Number?) &&
                    r.events == e0 + PhaseSteps(ch, phases[..k + 1])
  {
    var answers := Answers(s0, |phases|, parse);
    OutcomeSpec(answers);
    forall k | 0 <= k < |phases|
      ensures answers[k] == parse(AnswerFor(s0, k))
    {
      AnswersAt(s0, |phases|, parse, k);
    }
  }

  /** A sweep, handles or not: a missing AWG handle raises before anything
    * is sent, a missing lock-in handle right after the first phase write
    * and wait. */
  function SweepFrom(awgUp: bool, lockinUp: bool, s0: seq<Reply>, l0: seq<string>, e0: seq<Event>, ch: nat,
                     phases: seq<real>, timeSpread: real, offset: real, rate: real): SweepEnd
  {
    if phases != [] && !awgUp then SweepEnd([], [], Some(NoneExpected()), e0, s0, l0)
    else if phases != [] && !lockinUp then
      SweepEnd([], [], Some(NoneExpected()), e0 + Awgs([PhaseCmd(ch, phases[0]), Wai]), s0, l0)
    else Swept(ReadX, s0, l0, e0, ch, phases, timeSpread, offset, rate)
  }

  /** Whether the first `n` answers of a lock-in script all parse. */
  predicate AllParse(s0: seq<Reply>, n: nat) {
    forall k :: 0 <= k < n ==> ReadX(AnswerFor(s0, k)).Number?
  }

  /** The loop: one delay and one reading per phase, in order, or the first
    * exception. */
  method Sweep(awg: Awg, lockin: LockIn, ch: nat, phases: seq<real>, timeSpread: real, offset: real, rate: real, log: Log)
    returns (dt: seq<real>, data: seq<real>, raised: Option<string>)
    requires awg.bench == lockin.bench
    modifies awg.bench`events, awg.bench`lockinReplies, log
    ensures SweepEnd(dt, data, raised, awg.bench.events, awg.bench.lockinReplies, log.lines)
      == SweepFrom(awg.connected, lockin.connected, old(awg.bench.lockinReplies), old(log.lines), old(awg.bench.events),
                   ch, phases, timeSpread, offset, rate)
  {
    if phases != [] && !(awg.connected && lockin.connected) {
      var _ := SampleX(awg, lockin, ch, phases[0], true, log);
      return [], [], Some(NoneExpected());
    }
    forall y: Result | y.err
      ensures ReadX(y).Raises?
    {
    }
    dt, data, raised := SweepLoop(awg, lockin, ch, phases, timeSpread, offset, rate, ReadX, log);
  }

  /** One iteration of the loop, from the state after `i` iterations to
    * the state after `i + 1`: it hands back answer `i`, parsed. */
  method Iterate(awg: Awg, lockin: LockIn, ch: nat, phases: seq<real>, i: nat, parse: Result -> Sample, log: Log,
                 ghost s0: seq<Reply>, ghost e0: seq<Event>, ghost l0: seq<string>)
    returns (s: Sample)
    requires awg.bench == lockin.bench && awg.connected && lockin.connected && i < |phases|
    requires awg.bench.events == e0 + PhaseSteps(ch, phases[..i])
    requires awg.bench.lockinReplies == Skip(s0, Consumed(i))
    requires log.lines == l0 + BufferNote(s0, i)
    modifies awg.bench`events, awg.bench`lockinReplies, log
    ensures s == parse(AnswerFor(s0, i))
    ensures awg.bench.events == e0 + PhaseSteps(ch, phases[..i + 1])
    ensures awg.bench.lockinReplies == Skip(s0, Consumed(i + 1))
    ensures log.lines == l0 + BufferNote(s0, i + 1) + (if AnswerFor(s0, i).err then [XLost] else [])
  {
    var bench := awg.bench;
    assert phases[..i + 1] == phases[..i] + [phases[i]];
    var x := SampleX(awg, lockin, ch, phases[i], i == 0, log);
    SkipReplyAt(s0, Consumed(i), if i == 0 then 1 else 0, Data(Silence));
    SkipSkip(s0, Consumed(i), if i == 0 then 2 else 1);
    PhaseStepsSnoc(ch, phases[..i], phases[i]);
    Appended(bench.events, e0, PhaseSteps(ch, phases[..i]), PhaseStep(ch, phases[i], i == 0));
    assert x.value == AnswerFor(s0, i);
    s := parse(x.value);
  }

  /** The loop itself, once both handles are known to be there, with the
    * parse of each answer left as `parse`. */
  method SweepLoop(awg: Awg, lockin: LockIn, ch: nat, phases: seq<real>, timeSpread: real, offset: real, rate: real,
                   parse: Result -> Sample, log: Log)
    returns (dt: seq<real>, data: seq<real>, raised: Option<string>)
    requires awg.bench == lockin.bench && (phases == [] || (awg.connected && lockin.connected))
    requires forall y: Result :: y.err ==> parse(y).Raises?
    modifies awg.bench`events, awg.bench`lockinReplies, log
    ensures SweepEnd(dt, data, raised, awg.bench.events, awg.bench.lockinReplies, log.lines)
      == Swept(parse, old(awg.bench.lockinReplies), old(log.lines), old(awg.bench.events), ch, phases, timeSpread, offset, rate)
  {
    var bench := awg.bench;
    ghost var s0 := bench.lockinReplies;
    ghost var e0 := bench.events;
    ghost var l0 := log.lines;
    ghost var answers := Answers(s0, |phases|, parse);
    dt, data, raised := [], [], None;
    var i := 0;
    while i < |phases|
      invariant 0 <= i <= |phases|
      invariant Outcome(answers[..i]) == Values(data)
      invariant dt == Delays(phases[..i], timeSpread, offset, rate)
      invariant bench.events == e0 + PhaseSteps(ch, phases[..i])
      invariant bench.lockinReplies == Skip(s0, Consumed(i))
      invariant log.lines == l0 + BufferNote(s0, i)
    {
      dt := dt + [DelayOf(phases[i], timeSpread, offset, rate)];
      var s := Iterate(awg, lockin, ch, phases, i, parse, log, s0, e0, l0);
      AnswersAt(s0, |phases|, parse, i);
      OutcomeStep(answers, i, data);
      if s.Raises? {
        OutcomeSpec(answers);
        return [], [], Some(s.error);
      }
      data := data + [s.v];
      i := i + 1;
    }
    assert answers[..i] == answers;
    assert phases[..i] == phases;
  }
}
