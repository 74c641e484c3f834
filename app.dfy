/** The queue worker of src/app.py (`PumpProbeWorker`): it creates the
  * instruments when they are missing, connects both, checks the results
  * and the queue, then runs the experiment at the head of the queue over
  * and over until a run raises or the user stops the queue. The Qt signals
  * it emits become one ordered trace. */
module App {
  import opened Results
  import opened Text
  import opened Transport
  import opened Devices
  import QtPumpProbe

  datatype Color = Green | Red

  /** What the worker emits: `progress`, `finished`, `queue_signal`,
    * `lockin_status` and `awg_status`. */
  datatype Signal = Progress(text: string) | Finished | QueueColor(color: Color)
                  | LockinStatus(status: string) | AwgStatus(status: string)

  const LockinDown: string :=
    "[ERROR] Lock-in did not connect. Please ensure Lock-in is able to communicate with local user."
  const AwgDown: string :=
    "[ERROR] AWG did not connect. Please ensure AWG is able to communicate with local user."
  const EmptyQueue: string :=
    "[ERROR] Experiment queue is empty. Please fill queue with at least one experiment."
  const LockinHint: string := " 'send' is a Lock-in method. Is the Lock-in connected properly?"
  const AwgHint: string := " 'write' is an AWG method. Is the AWG connected properly?"

  /** The progress message for an exception whose `str` is `text` and whose
    * `repr` is `repr`: a lock-in hint when the repr names `send`, otherwise
    * an AWG hint when it names `write`. */
  function ErrorMessage(text: string, repr: string): string {
    "[ERROR] " + text + ". "
    + (if Contains(repr, "'send'") then LockinHint else if Contains(repr, "'write'") then AwgHint else "")
  }

  /** A lock-in without a socket is named in the message, even though
    * `send` is also what the AWG hint would not match. */
  lemma MissingSocketHint(text: string)
    ensures ErrorMessage(text, NoneAttribute("send")) == "[ERROR] " + text + ". " + LockinHint
  {
    var prefix := "AttributeError(\"'NoneType' object has no attribute ";
    var s := NoneAttribute("send");
    assert s == prefix + "'send'" + "\")";
    assert s[|prefix|..|prefix| + 6] == "'send'";
    ContainsAt(s, "'send'", |prefix|);
  }

  /** The lock-in hint wins over the AWG hint when the repr names both. */
  lemma LockinHintFirst(text: string, repr: string)
    requires Contains(repr, "'send'") && Contains(repr, "'write'")
    ensures ErrorMessage(text, repr) == "[ERROR] " + text + ". " + LockinHint
  {
  }

  /** What `connect_lockin` and `connect_awg` emit around the attempt:
    * "Connecting...", the result's message, then the status. */
  function LockinSignals(r: Result): seq<Signal> {
    [Progress("[Lock-in] Connecting..."), LockinStatus("Connecting..."), Progress("[Lock-in] " + r.msg),
     LockinStatus(if r.err then "Disconnected" else "Connected")]
  }

  function AwgSignals(r: Result): seq<Signal> {
    [Progress("[AWG] Connecting..."), AwgStatus("Connecting..."), Progress("[AWG] " + r.msg),
     AwgStatus(if r.err then "Disconnected" else "Connected")]
  }

  /** The results of the two connection attempts. */
  function LockinResult(refusal: Option<string>): Result {
    if refusal.Some? then Result(refusal.value, true) else Result("Connected", false)
  }

  function AwgResult(id: string, failure: Option<string>): Result {
    if failure.Some? then Result(failure.value, true) else Result("[" + id + "] Connected", false)
  }

  /** What one pass of the loop emits: the queue turns green, and when the
    * run raised, the error message and red follow. */
  function StepSignals(raised: Option<string>, show: string -> string): seq<Signal> {
    [QueueColor(Green)]
    + (if raised.Some? then [Progress(ErrorMessage(show(raised.value), raised.value)), QueueColor(Red)] else [])
  }

  /** The pass's signals, emitted in two steps. */
  lemma StepShape(g: seq<Signal>, raised: Option<string>, show: string -> string)
    ensures g + StepSignals(raised, show)
      == if raised.Some? then g + [QueueColor(Green)] + [Progress(ErrorMessage(show(raised.value), raised.value)), QueueColor(Red)]
         else g + [QueueColor(Green)]
  {
  }

  /** Where the worker leaves things: the signals, `running_pp`, the bench
    * and the console. */
  datatype WorkerEnd = WorkerEnd(signals: seq<Signal>, running: bool, events: seq<Event>,
                                 awgReplies: seq<Reply>, lockinReplies: seq<Reply>, lines: seq<string>)

  /** One call of `pump_probe.run`, from a trace, the two reply scripts and
    * the console. */
  type Pass = (seq<Event>, seq<Reply>, seq<Reply>, seq<string>) -> QtPumpProbe.RunEnd

  /** `run` is `pump_probe.run(exp, repeat)` with both instruments
    * connected: from any state it ends where that run ends. */
  ghost predicate Models(run: Pass, c: QtPumpProbe.Config, exp: QtPumpProbe.Experiment, repeat: bool) {
    forall e: seq<Event>, a: seq<Reply>, s: seq<Reply>, l: seq<string>
      {:trigger QtPumpProbe.RunFrom(c, exp, repeat, true, true, e, a, s, l)}
      :: run(e, a, s, l) == QtPumpProbe.RunFrom(c, exp, repeat, true, true, e, a, s, l)
  }

  /** The pass a worker drives. */
  function RunOf(c: QtPumpProbe.Config, exp: QtPumpProbe.Experiment, repeat: bool): (run: Pass)
    ensures Models(run, c, exp, repeat)
  {
    (e, a, s, l) => QtPumpProbe.RunFrom(c, exp, repeat, true, true, e, a, s, l)
  }

  lemma UseModel(run: Pass, c: QtPumpProbe.Config, exp: QtPumpProbe.Experiment, repeat: bool,
                 e: seq<Event>, a: seq<Reply>, s: seq<Reply>, l: seq<string>)
    requires Models(run, c, exp, repeat)
    ensures run(e, a, s, l) == QtPumpProbe.RunFrom(c, exp, repeat, true, true, e, a, s, l)
  {
  }

  /** The loop from signals `g`, trace `e`, scripts `a` and `s` and console
    * `l`: each pass paints the queue green and calls `run`; it goes on
    * until a pass raises or the stop click, which comes during the pass
    * `k` passes from now; `show` is `str` of an exception given its
    * `repr`. */
  function Loop(run: Pass, show: string -> string, k: nat,
                e: seq<Event>, a: seq<Reply>, s: seq<Reply>, l: seq<string>, g: seq<Signal>): WorkerEnd
    decreases k
  {
    var r := run(e, a, s, l);
    var g1 := g + StepSignals(r.raised, show);
    if r.raised.Some? || k == 0 then WorkerEnd(g1, false, r.events, r.awgReplies, r.lockinReplies, r.lines)
    else Loop(run, show, k - 1, r.events, r.awgReplies, r.lockinReplies, r.lines, g1)
  }

  /** What `run()` emits before it looks at the results: the two
    * initialisations that happen, then both connection attempts. */
  function Greeting(lockinNull: bool, awgNull: bool, lr: Result, ar: Result): seq<Signal> {
    (if lockinNull then [Progress("[Lock-in] Initializing")] else [])
    + (if awgNull then [Progress("[AWG] Initializing")] else [])
    + LockinSignals(lr) + AwgSignals(ar)
  }

  /** What the two failed connections print to the console. */
  function ConnectNotes(lr: Result, ar: Result): seq<string> {
    (if lr.err then ["[Lock-in] Could not connect:"] else [])
    + (if ar.err then ["[AWG] Could not connect:"] else [])
  }

  /** The checks of `run()` after both connection attempts, then the loop
    * over the head of the queue. */
  function Dispatch(run: Pass, lr: Result, ar: Result, rows: nat, queue: seq<QtPumpProbe.Experiment>,
                    show: string -> string, stopAfter: nat, running0: bool,
                    e1: seq<Event>, a1: seq<Reply>, s1: seq<Reply>, l1: seq<string>, g1: seq<Signal>): WorkerEnd
  {
    if lr.err then WorkerEnd(g1 + [Progress(LockinDown), Finished], running0, e1, a1, s1, l1)
    else if ar.err then WorkerEnd(g1 + [Progress(AwgDown), Finished], running0, e1, a1, s1, l1)
    else if rows == 0 then WorkerEnd(g1 + [Progress(EmptyQueue), Finished], running0, e1, a1, s1, l1)
    else if queue == [] then WorkerEnd(g1 + [Finished], true, e1, a1, s1, l1)
    else
      var w := Loop(run, show, stopAfter, e1, a1, s1, l1, g1);
      WorkerEnd(w.signals + [Finished], w.running, w.events, w.awgReplies, w.lockinReplies, w.lines)
  }

  /** `run()` from signals `g0`, `running_pp` `running0`, trace `e0`,
    * scripts `a0` and `s0` and console `l0`. `lockinNull` and `awgNull`
    * say whether the instruments are still to be created, `refusal` and
    * `failure` what their connections fail with, `rows` is the queue's row
    * count and `queue` its data. */
  function WorkerFrom(run: Pass, c: QtPumpProbe.Config, lockinNull: bool, awgNull: bool,
                      refusal: Option<string>, failure: Option<string>, rows: nat, queue: seq<QtPumpProbe.Experiment>,
                      show: string -> string, stopAfter: nat, running0: bool,
                      e0: seq<Event>, a0: seq<Reply>, s0: seq<Reply>, l0: seq<string>, g0: seq<Signal>): WorkerEnd
  {
    var lr := LockinResult(refusal);
    var ar := AwgResult(c.awgId, failure);
    Dispatch(run, lr, ar, rows, queue, show, stopAfter, running0,
             e0, a0, s0, l0 + ConnectNotes(lr, ar), g0 + Greeting(lockinNull, awgNull, lr, ar))
  }

  /** How many of the signals are `sig`. */
  function Count(signals: seq<Signal>, sig: Signal): nat {
    if signals == [] then 0
    else Count(signals[..|signals| - 1], sig) + (if signals[|signals| - 1] == sig then 1 else 0)
  }

  lemma {:induction false} CountAppend(a: seq<Signal>, b: seq<Signal>, sig: Signal)
    ensures Count(a + b, sig) == Count(a, sig) + Count(b, sig)
    decreases |b|
  {
    if b != [] {
      CountAppend(a, b[..|b| - 1], sig);
      assert (a + b)[..|a + b| - 1] == a + b[..|b| - 1];
    } else {
      assert a + b == a;
    }
  }

  lemma {:induction false} CountAbsent(signals: seq<Signal>, sig: Signal)
    requires sig !in signals
    ensures Count(signals, sig) == 0
    decreases |signals|
  {
    if signals != [] {
      assert signals[..|signals| - 1] <= signals;
      CountAbsent(signals[..|signals| - 1], sig);
    }
  }

  /** One pass paints green once, red once exactly when the run raised, and
    * never emits `finished`. */
  lemma StepCounts(raised: Option<string>, show: string -> string)
    ensures var step := StepSignals(raised, show);
      Count(step, Finished) == 0 && Count(step, QueueColor(Green)) == 1
      && Count(step, QueueColor(Red)) == (if raised.Some? then 1 else 0)
  {
    var step := StepSignals(raised, show);
    CountAbsent(step, Finished);
    if raised.Some? {
      var p := Progress(ErrorMessage(show(raised.value), raised.value));
      assert step == [QueueColor(Green), p] + [QueueColor(Red)];
      assert [QueueColor(Green), p][..1] == [QueueColor(Green)];
      CountAbsent([QueueColor(Green), p], QueueColor(Red));
      CountAppend([QueueColor(Green), p], [QueueColor(Red)], QueueColor(Green));
    } else {
      assert step == [QueueColor(Green)];
    }
  }

  /** What the loop appends to the signals when it may run `k + 1` times:
    * no `finished`; green once per run, at least once and at most `k + 1`
    * times, exactly `k + 1` times unless a run raised; red at most once,
    * and then as the very last signal. */
  predicate LoopShape(added: seq<Signal>, k: nat) {
    Count(added, Finished) == 0
    && 1 <= Count(added, QueueColor(Green)) <= k + 1
    && Count(added, QueueColor(Red)) <= 1
    && (Count(added, QueueColor(Red)) == 0 ==> Count(added, QueueColor(Green)) == k + 1)
    && (Count(added, QueueColor(Red)) == 0 || added[|added| - 1] == QueueColor(Red))
  }

  /** The last pass: the run raised, or it was the one the stop click
    * came during. */
  lemma LastPassShape(raised: Option<string>, show: string -> string, k: nat)
    requires raised.Some? || k == 0
    ensures LoopShape(StepSignals(raised, show), k)
  {
    StepCounts(raised, show);
  }

  /** A pass that did not raise, followed by what the rest of the loop
    * appends. */
  lemma PassThenShape(show: string -> string, k: nat, rest: seq<Signal>)
    requires 0 < k && LoopShape(rest, k - 1)
    ensures LoopShape(StepSignals(None, show) + rest, k)
  {
    var step := StepSignals(None, show);
    StepCounts(None, show);
    CountAppend(step, rest, Finished);
    CountAppend(step, rest, QueueColor(Green));
    CountAppend(step, rest, QueueColor(Red));
    if Count(rest, QueueColor(Red)) != 0 {
      assert (step + rest)[|step + rest| - 1] == rest[|rest| - 1];
    }
  }

  /** One pass of the loop: it ends after a pass that raised or the
    * pass the stop click came during, and otherwise goes on from where
    * that pass left things. */
  lemma LoopStep(run: Pass, show: string -> string, k: nat,
                 e: seq<Event>, a: seq<Reply>, s: seq<Reply>, l: seq<string>, g: seq<Signal>)
    ensures var r := run(e, a, s, l);
      Loop(run, show, k, e, a, s, l, g)
      == if r.raised.Some? || k == 0 then WorkerEnd(g + StepSignals(r.raised, show), false, r.events, r.awgReplies,
                                                    r.lockinReplies, r.lines)
         else Loop(run, show, k - 1, r.events, r.awgReplies, r.lockinReplies, r.lines, g + StepSignals(None, show))
  {
  }

  /** The loop only extends the signals, and what it appends has the
    * shape above. */
  lemma {:induction false} LoopSignals(run: Pass, show: string -> string, k: nat,
                                       e: seq<Event>, a: seq<Reply>, s: seq<Reply>, l: seq<string>, g: seq<Signal>)
    ensures var w := Loop(run, show, k, e, a, s, l, g);
      |g| <= |w.signals| && w.signals[..|g|] == g && !w.running && LoopShape(w.signals[|g|..], k)
    decreases k
  {
    var w := Loop(run, show, k, e, a, s, l, g);
    var r := run(e, a, s, l);
    var step := StepSignals(r.raised, show);
    var g1 := g + step;
    if r.raised.Some? || k == 0 {
      assert w.signals == g + step;
      assert w.signals[|g|..] == step;
      LastPassShape(r.raised, show, k);
    } else {
      var w1 := Loop(run, show, k - 1, r.events, r.awgReplies, r.lockinReplies, r.lines, g1);
      assert w == w1;
      LoopSignals(run, show, k - 1, r.events, r.awgReplies, r.lockinReplies, r.lines, g1);
      var rest := w1.signals[|g1|..];
      assert w.signals == g + (step + rest);
      assert w.signals[|g|..] == step + rest;
      PassThenShape(show, k, rest);
    }
  }

  /** The greeting neither finishes nor paints the queue. */
  lemma GreetingQuiet(lockinNull: bool, awgNull: bool, lr: Result, ar: Result)
    ensures Count(Greeting(lockinNull, awgNull, lr, ar), Finished) == 0
    ensures Count(Greeting(lockinNull, awgNull, lr, ar), QueueColor(Green)) == 0
  {
    CountAbsent(Greeting(lockinNull, awgNull, lr, ar), Finished);
    CountAbsent(Greeting(lockinNull, awgNull, lr, ar), QueueColor(Green));
  }

  lemma DropPrefix(g: seq<Signal>, g0: seq<Signal>, head: seq<Signal>)
    requires |g0 + head| <= |g| && g[..|g0 + head|] == g0 + head
    ensures g[..|g0|] == g0 && g[|g0|..] == head + g[|g0 + head|..]
  {
    assert g[..|g0|] == (g0 + head)[..|g0|];
  }

  /** A check that fails ends the signals with its message and `finished`. */
  lemma StopsWithMessage(g1: seq<Signal>, msg: string)
    ensures var g := g1 + [Progress(msg), Finished];
      |g1| < |g| && g[..|g1|] == g1 && g[|g| - 1] == Finished && Count(g[|g1|..], Finished) == 1
  {
    var g := g1 + [Progress(msg), Finished];
    assert g[|g1|..] == [Progress(msg)] + [Finished];
    CountAbsent([Progress(msg)], Finished);
    CountAppend([Progress(msg)], [Finished], Finished);
  }

  /** The loop's signals are followed by `finished`. */
  lemma LoopThenFinished(run: Pass, show: string -> string,
                         stopAfter: nat, e1: seq<Event>, a1: seq<Reply>, s1: seq<Reply>, l1: seq<string>, g1: seq<Signal>)
    ensures var g := Loop(run, show, stopAfter, e1, a1, s1, l1, g1).signals + [Finished];
      |g1| < |g| && g[..|g1|] == g1 && g[|g| - 1] == Finished && Count(g[|g1|..], Finished) == 1
  {
    var lw := Loop(run, show, stopAfter, e1, a1, s1, l1, g1);
    LoopSignals(run, show, stopAfter, e1, a1, s1, l1, g1);
    var middle := lw.signals[|g1|..];
    AppendFinished(lw.signals, g1, middle);
  }

  lemma AppendFinished(g: seq<Signal>, g1: seq<Signal>, middle: seq<Signal>)
    requires |g1| <= |g| && g[..|g1|] == g1 && middle == g[|g1|..] && Count(middle, Finished) == 0
    ensures var h := g + [Finished];
      |g1| < |h| && h[..|g1|] == g1 && h[|h| - 1] == Finished && Count(h[|g1|..], Finished) == 1
  {
    var h := g + [Finished];
    assert h[|g1|..] == middle + [Finished];
    assert h[..|g1|] == g[..|g1|];
    CountAppend(middle, [Finished], Finished);
  }

  /** Every way out of the checks and the loop ends with `finished`,
    * emitted there once. */
  lemma DispatchFinishes(run: Pass, lr: Result, ar: Result, rows: nat, queue: seq<QtPumpProbe.Experiment>,
                         show: string -> string, stopAfter: nat, running0: bool,
                         e1: seq<Event>, a1: seq<Reply>, s1: seq<Reply>, l1: seq<string>, g1: seq<Signal>)
    ensures var g := Dispatch(run, lr, ar, rows, queue, show, stopAfter, running0, e1, a1, s1, l1, g1).signals;
      |g1| < |g| && g[..|g1|] == g1 && g[|g| - 1] == Finished && Count(g[|g1|..], Finished) == 1
  {
    if lr.err {
      StopsWithMessage(g1, LockinDown);
    } else if ar.err {
      StopsWithMessage(g1, AwgDown);
    } else if rows == 0 {
      StopsWithMessage(g1, EmptyQueue);
    } else if queue == [] {
      AppendFinished(g1, g1, []);
    } else {
      LoopThenFinished(run, show, stopAfter, e1, a1, s1, l1, g1);
    }
  }

  /** `finished` is emitted exactly once, as the last signal, on every path
    * out of `run`. */
  lemma FinishedOnce(run: Pass, c: QtPumpProbe.Config, lockinNull: bool, awgNull: bool,
                     refusal: Option<string>, failure: Option<string>, rows: nat, queue: seq<QtPumpProbe.Experiment>,
                     show: string -> string, stopAfter: nat, running0: bool,
                     e0: seq<Event>, a0: seq<Reply>, s0: seq<Reply>, l0: seq<string>, g0: seq<Signal>)
    ensures var g := WorkerFrom(run, c, lockinNull, awgNull, refusal, failure, rows, queue, show, stopAfter,
                                running0, e0, a0, s0, l0, g0).signals;
      |g0| < |g| && g[..|g0|] == g0 && g[|g| - 1] == Finished && Count(g[|g0|..], Finished) == 1
  {
    var lr := LockinResult(refusal);
    var ar := AwgResult(c.awgId, failure);
    var head := Greeting(lockinNull, awgNull, lr, ar);
    var g1 := g0 + head;
    var g := Dispatch(run, lr, ar, rows, queue, show, stopAfter, running0, e0, a0, s0, l0 + ConnectNotes(lr, ar), g1).signals;
    DispatchFinishes(run, lr, ar, rows, queue, show, stopAfter, running0, e0, a0, s0, l0 + ConnectNotes(lr, ar), g1);
    GreetingQuiet(lockinNull, awgNull, lr, ar);
    DropPrefix(g, g0, head);
    CountAppend(head, g[|g1|..], Finished);
  }

  /** Both connections are attempted before either result is looked at,
    * and a lock-in failure is the one reported, whatever the AWG did; no
    * experiment runs. */
  lemma LockinCheckedFirst(run: Pass, c: QtPumpProbe.Config, lockinNull: bool, awgNull: bool,
                           refusal: Option<string>, failure: Option<string>, rows: nat, queue: seq<QtPumpProbe.Experiment>,
                           show: string -> string, stopAfter: nat, running0: bool,
                           e0: seq<Event>, a0: seq<Reply>, s0: seq<Reply>, l0: seq<string>, g0: seq<Signal>)
    requires refusal.Some?
    ensures var w := WorkerFrom(run, c, lockinNull, awgNull, refusal, failure, rows, queue, show, stopAfter,
                                running0, e0, a0, s0, l0, g0);
      w.signals[|w.signals| - 10..] == LockinSignals(Result(refusal.value, true)) + AwgSignals(AwgResult(c.awgId, failure))
                                        + [Progress(LockinDown), Finished]
      && w.events == e0 && w.running == running0
  {
    var w := WorkerFrom(run, c, lockinNull, awgNull, refusal, failure, rows, queue, show, stopAfter,
                        running0, e0, a0, s0, l0, g0);
    var tail := LockinSignals(Result(refusal.value, true)) + AwgSignals(AwgResult(c.awgId, failure))
                + [Progress(LockinDown), Finished];
    var inits := (if lockinNull then [Progress("[Lock-in] Initializing")] else [])
                 + (if awgNull then [Progress("[AWG] Initializing")] else []);
    assert w.signals == (g0 + inits) + tail;
  }

  /** With both instruments connected and an empty queue, the worker
    * reports the empty queue and finishes without sending anything. */
  lemma EmptyQueueRunsNothing(run: Pass, c: QtPumpProbe.Config, lockinNull: bool, awgNull: bool,
                              queue: seq<QtPumpProbe.Experiment>,
                              show: string -> string, stopAfter: nat, running0: bool,
                              e0: seq<Event>, a0: seq<Reply>, s0: seq<Reply>, l0: seq<string>, g0: seq<Signal>)
    ensures var w := WorkerFrom(run, c, lockinNull, awgNull, None, None, 0, queue, show, stopAfter,
                                running0, e0, a0, s0, l0, g0);
      w.signals[|w.signals| - 2..] == [Progress(EmptyQueue), Finished]
      && w.events == e0 && w.awgReplies == a0 && w.lockinReplies == s0 && w.lines == l0
      && Count(w.signals, QueueColor(Green)) == Count(g0, QueueColor(Green))
  {
    var lr := LockinResult(None);
    var ar := AwgResult(c.awgId, None);
    var head := Greeting(lockinNull, awgNull, lr, ar);
    var tail := [Progress(EmptyQueue), Finished];
    assert ConnectNotes(lr, ar) == [];
    assert l0 + [] == l0;
    GreetingQuiet(lockinNull, awgNull, lr, ar);
    CountAbsent(tail, QueueColor(Green));
    CountAppend(head, tail, QueueColor(Green));
    CountAppend(g0, head + tail, QueueColor(Green));
    assert g0 + head + tail == g0 + (head + tail);
  }

  /** `run` is `pump_probe.run(exp, repeat)` as src/pumpprobe.py is
    * written, with both instruments connected. */
  ghost predicate ModelsAsWritten(run: Pass, c: QtPumpProbe.Config, exp: QtPumpProbe.Experiment, repeat: bool) {
    forall e: seq<Event>, a: seq<Reply>, s: seq<Reply>, l: seq<string>
      {:trigger QtPumpProbe.RunFromAsWritten(c, exp, repeat, true, true, e, a, s, l)}
      :: run(e, a, s, l) == QtPumpProbe.RunFromAsWritten(c, exp, repeat, true, true, e, a, s, l)
  }

  /** The pass a worker drives as the runner is written. */
  function RunOfAsWritten(c: QtPumpProbe.Config, exp: QtPumpProbe.Experiment, repeat: bool): (run: Pass)
    ensures ModelsAsWritten(run, c, exp, repeat)
  {
    (e, a, s, l) => QtPumpProbe.RunFromAsWritten(c, exp, repeat, true, true, e, a, s, l)
  }

  /** As written, the first pass of the loop raises `create_pulse`'s
    * TypeError after the two resets, and the loop ends there. */
  lemma AsWrittenLoop(run: Pass, c: QtPumpProbe.Config, exp: QtPumpProbe.Experiment, show: string -> string, k: nat,
                      e: seq<Event>, a: seq<Reply>, s: seq<Reply>, l: seq<string>, g: seq<Signal>)
    requires ModelsAsWritten(run, c, exp, false)
    ensures Loop(run, show, k, e, a, s, l, g)
      == WorkerEnd(g + StepSignals(Some(QtPumpProbe.CreatePulseArity), show), false,
                   e + Awgs([Rst]) + [ToLockIn("*CLS")], a, s, l)
  {
    QtPumpProbe.AsWrittenNeverUploads(c, exp, false, true, true, e, a, s, l);
    assert run(e, a, s, l) == QtPumpProbe.RunFromAsWritten(c, exp, false, true, true, e, a, s, l);
    LoopStep(run, show, k, e, a, s, l, g);
  }

  /** As written, `repeat_arb` stays false and every pass raises
    * `create_pulse`'s TypeError after the two resets. With both
    * connections made and a queue to run, the worker stops after its first
    * pass: green, the error message and red, then one `finished`, with
    * only the two resets sent and `running_pp` cleared. */
  lemma AsWrittenStopsAfterOnePass(run: Pass, c: QtPumpProbe.Config, lockinNull: bool, awgNull: bool,
                                   rows: nat, queue: seq<QtPumpProbe.Experiment>,
                                   show: string -> string, stopAfter: nat, running0: bool,
                                   e0: seq<Event>, a0: seq<Reply>, s0: seq<Reply>, l0: seq<string>, g0: seq<Signal>)
    requires rows > 0 && queue != [] && ModelsAsWritten(run, c, queue[0], false)
    ensures var w := WorkerFrom(run, c, lockinNull, awgNull, None, None, rows, queue, show, stopAfter,
                                running0, e0, a0, s0, l0, g0);
      w.signals == g0 + Greeting(lockinNull, awgNull, LockinResult(None), AwgResult(c.awgId, None))
                   + StepSignals(Some(QtPumpProbe.CreatePulseArity), show) + [Finished]
      && !w.running && w.events == e0 + Awgs([Rst]) + [ToLockIn("*CLS")]
      && w.awgReplies == a0 && w.lockinReplies == s0 && w.lines == l0
      && Count(w.signals[|g0|..], Finished) == 1
  {
    var lr := LockinResult(None);
    var ar := AwgResult(c.awgId, None);
    assert ConnectNotes(lr, ar) == [];
    assert l0 + [] == l0;
    AsWrittenLoop(run, c, queue[0], show, stopAfter, e0, a0, s0, l0, g0 + Greeting(lockinNull, awgNull, lr, ar));
    FinishedOnce(run, c, lockinNull, awgNull, None, None, rows, queue, show, stopAfter, running0, e0, a0, s0, l0, g0);
  }

  /** The worker thread and the runner it drives. */
  class Worker {
    const runner: QtPumpProbe.Runner
    const console: Log
    /** `queue.rowCount()` and `queue.data`. */
    const rows: nat
    const queue: seq<QtPumpProbe.Experiment>
    var runningPP: bool
    var repeatArb: bool
    var signals: seq<Signal>

    constructor (runner: QtPumpProbe.Runner, console: Log, rows: nat, queue: seq<QtPumpProbe.Experiment>)
      ensures this.runner == runner && this.console == console && this.rows == rows && this.queue == queue
      ensures !runningPP && !repeatArb && signals == []
    {
      this.runner := runner;
      this.console := console;
      this.rows := rows;
      this.queue := queue;
      runningPP := false;
      repeatArb := false;
      signals := [];
    }

    /** `stop_early`, the "Stop queue" button. */
    method StopEarly()
      modifies this`runningPP
      ensures !runningPP
    {
      runningPP := false;
    }

    /** `init_lockin`: a lock-in is created only when there is none. */
    method InitLockin()
      requires runner.Valid()
      modifies runner`lockin, this`signals
      ensures runner.Valid() && runner.lockin != null
      ensures old(runner.lockin) != null ==> runner.lockin == old(runner.lockin)
      ensures old(runner.lockin) == null ==> fresh(runner.lockin) && runner.lockin.ip == runner.config.lockinIp
      ensures signals == old(signals) + (if old(runner.lockin) == null then [Progress("[Lock-in] Initializing")] else [])
    {
      if runner.lockin == null {
        signals := signals + [Progress("[Lock-in] Initializing")];
        runner.lockin := new LockIn(runner.config.lockinIp, runner.bench);
      }
    }

    /** `init_awg`: an AWG is created only when there is none. */
    method InitAwg()
      requires runner.Valid()
      modifies runner`awg, this`signals
      ensures runner.Valid() && runner.awg != null
      ensures old(runner.awg) != null ==> runner.awg == old(runner.awg)
      ensures old(runner.awg) == null ==> fresh(runner.awg) && runner.awg.id == runner.config.awgId && runner.awg.show == runner.show
      ensures signals == old(signals) + (if old(runner.awg) == null then [Progress("[AWG] Initializing")] else [])
    {
      if runner.awg == null {
        signals := signals + [Progress("[AWG] Initializing")];
        runner.awg := new Awg(runner.config.awgId, AppDriver, runner.bench, runner.show);
      }
    }

    /** `connect_lockin`: the status ends "Disconnected" exactly when the
      * connection failed. */
    method ConnectLockin(refusal: Option<string>) returns (r: Result)
      requires runner.lockin != null
      modifies runner.lockin`connected, this`signals, console
      ensures r == LockinResult(refusal) && (r.err <==> refusal.Some?)
      ensures runner.lockin.connected <==> refusal.None?
      ensures signals == old(signals) + LockinSignals(r)
      ensures console.lines == old(console.lines) + (if r.err then ["[Lock-in] Could not connect:"] else [])
    {
      signals := signals + [Progress("[Lock-in] Connecting..."), LockinStatus("Connecting...")];
      r := runner.lockin.Connect(refusal);
      r := r.Expected("[Lock-in] Could not connect:", console);
      signals := signals + [Progress("[Lock-in] " + r.msg)];
      if r.err {
        signals := signals + [LockinStatus("Disconnected")];
      } else {
        signals := signals + [LockinStatus("Connected")];
      }
    }

    /** `connect_awg`: the status ends "Disconnected" exactly when the
      * connection failed. */
    method ConnectAwg(failure: Option<string>) returns (r: Result)
      requires runner.awg != null
      modifies runner.awg`connected, this`signals, console
      ensures r == AwgResult(runner.awg.id, failure) && (r.err <==> failure.Some?)
      ensures failure.None? ==> runner.awg.connected
      ensures signals == old(signals) + AwgSignals(r)
      ensures console.lines == old(console.lines) + (if r.err then ["[AWG] Could not connect:"] else [])
    {
      signals := signals + [Progress("[AWG] Connecting..."), AwgStatus("Connecting...")];
      r := runner.awg.Connect(failure);
      r := r.Expected("[AWG] Could not connect:", console);
      signals := signals + [Progress("[AWG] " + r.msg)];
      if r.err {
        signals := signals + [AwgStatus("Disconnected")];
      } else {
        signals := signals + [AwgStatus("Connected")];
      }
    }

    /** `run()`: create what is missing, connect both instruments, check
      * the results and the queue, then run the head of the queue until a
      * run raises or the stop click, which comes during pass `stopAfter`;
      * `refusal` and `failure` are what the connections fail with, `show`
      * is `str` of an exception given its `repr`, and `run` is what
      * `pump_probe.run` does with the head of the queue. */
    method Run(refusal: Option<string>, failure: Option<string>, show: string -> string, stopAfter: nat,
               ghost run: Pass)
      requires runner.Valid() && (queue != [] ==> Models(run, runner.config, queue[0], repeatArb))
      modifies this`signals, this`runningPP, runner`lockin, runner`awg, runner.lockin, runner.awg
      modifies runner.bench`events, runner.bench`awgReplies, runner.bench`lockinReplies, console
      ensures var w := WorkerFrom(run, runner.config, old(runner.lockin) == null, old(runner.awg) == null,
                                  refusal, failure, rows, queue, show, stopAfter, old(runningPP),
                                  old(runner.bench.events), old(runner.bench.awgReplies),
                                  old(runner.bench.lockinReplies), old(console.lines), old(signals));
        signals == w.signals && runningPP == w.running && runner.bench.events == w.events
        && runner.bench.awgReplies == w.awgReplies && runner.bench.lockinReplies == w.lockinReplies
        && console.lines == w.lines
    {
      var lr, ar := Greet(refusal, failure);
      Check(lr, ar, show, stopAfter, run);
    }

    /** The second half of `run()`: the three checks, each of which ends the
      * run with its message, then the loop. */
    method Check(lr: Result, ar: Result, show: string -> string, stopAfter: nat, ghost run: Pass)
      requires runner.Ready() && (!lr.err ==> runner.lockin.connected) && (!ar.err ==> runner.awg.connected)
      requires queue != [] ==> Models(run, runner.config, queue[0], repeatArb)
      modifies this`signals, this`runningPP, runner.bench`events, runner.bench`awgReplies, runner.bench`lockinReplies, console
      ensures WorkerEnd(signals, runningPP, runner.bench.events, runner.bench.awgReplies, runner.bench.lockinReplies,
                        console.lines)
        == Dispatch(run, lr, ar, rows, queue, show, stopAfter, old(runningPP), old(runner.bench.events),
                    old(runner.bench.awgReplies), old(runner.bench.lockinReplies), old(console.lines), old(signals))
    {
      if lr.err {
        signals := signals + [Progress(LockinDown), Finished];
        return;
      }
      if ar.err {
        signals := signals + [Progress(AwgDown), Finished];
        return;
      }
      if rows == 0 {
        signals := signals + [Progress(EmptyQueue), Finished];
        return;
      }
      runningPP := true;
      if queue != [] {
        Drain(show, stopAfter, run);
      }
      signals := signals + [Finished];
    }

    /** The first half of `run()`: create what is missing and try both
      * connections. */
    method Greet(refusal: Option<string>, failure: Option<string>) returns (lr: Result, ar: Result)
      requires runner.Valid()
      modifies this`signals, runner`lockin, runner`awg, runner.lockin, runner.awg, console
      ensures runner.Ready() && lr == LockinResult(refusal) && ar == AwgResult(runner.config.awgId, failure)
      ensures runner.lockin.connected <==> refusal.None?
      ensures failure.None? ==> runner.awg.connected
      ensures signals == old(signals) + Greeting(old(runner.lockin) == null, old(runner.awg) == null, lr, ar)
      ensures console.lines == old(console.lines) + ConnectNotes(lr, ar)
    {
      ghost var g0, l0 := signals, console.lines;
      ghost var made := (if runner.lockin == null then [Progress("[Lock-in] Initializing")] else [],
                         if runner.awg == null then [Progress("[AWG] Initializing")] else []);
      InitLockin();
      InitAwg();
      lr := ConnectLockin(refusal);
      ar := ConnectAwg(failure);
      Appended4(signals, g0, made.0, made.1, LockinSignals(lr), AwgSignals(ar));
      Appended(console.lines, l0, if lr.err then ["[Lock-in] Could not connect:"] else [],
               if ar.err then ["[AWG] Could not connect:"] else []);
    }

    /** The loop of `run()` over the head of the queue, with both
      * instruments connected. */
    method Drain(show: string -> string, stopAfter: nat, ghost run: Pass)
      requires runner.Ready() && runner.lockin.connected && runner.awg.connected && queue != [] && runningPP
      requires Models(run, runner.config, queue[0], repeatArb)
      modifies this`signals, this`runningPP, runner.bench`events, runner.bench`awgReplies, runner.bench`lockinReplies, console
      ensures WorkerEnd(signals, runningPP, runner.bench.events, runner.bench.awgReplies, runner.bench.lockinReplies,
                        console.lines)
        == Loop(run, show, stopAfter, old(runner.bench.events), old(runner.bench.awgReplies),
                old(runner.bench.lockinReplies), old(console.lines), old(signals))
    {
      ghost var final := Loop(run, show, stopAfter, runner.bench.events, runner.bench.awgReplies,
                              runner.bench.lockinReplies, console.lines, signals);
      ghost var k := stopAfter;
      var i := 0;
      while runningPP
        invariant runner.Ready() && runner.lockin.connected && runner.awg.connected
        invariant runningPP ==> i + k == stopAfter
        invariant runningPP ==> Loop(run, show, k, runner.bench.events, runner.bench.awgReplies,
                                     runner.bench.lockinReplies, console.lines, signals) == final
        invariant !runningPP ==> WorkerEnd(signals, runningPP, runner.bench.events, runner.bench.awgReplies,
                                           runner.bench.lockinReplies, console.lines) == final
        decreases if runningPP then k + 1 else 0
      {
        Pass(show, i == stopAfter, run, k, final);
        i := i + 1;
        if runningPP {
          k := k - 1;
        }
      }
    }

    /** `pump_probe.run` of the head of the queue, seen through `run`. */
    method RunHead(ghost run: Pass) returns (raised: Option<string>)
      requires runner.Ready() && runner.lockin.connected && runner.awg.connected && queue != []
      requires Models(run, runner.config, queue[0], repeatArb)
      modifies runner.bench`events, runner.bench`awgReplies, runner.bench`lockinReplies, console
      ensures var r := run(old(runner.bench.events), old(runner.bench.awgReplies), old(runner.bench.lockinReplies),
                           old(console.lines));
        raised == r.raised && runner.bench.events == r.events && runner.bench.awgReplies == r.awgReplies
        && runner.bench.lockinReplies == r.lockinReplies && console.lines == r.lines
    {
      UseModel(run, runner.config, queue[0], repeatArb, runner.bench.events, runner.bench.awgReplies,
               runner.bench.lockinReplies, console.lines);
      var data, dt;
      data, dt, raised := runner.Run(queue[0], repeatArb, console);
    }

    /** One pass of the loop: paint the queue green, run the head of the
      * queue, and on an exception report it, paint the queue red and stop;
      * `stop` is the stop click coming during this pass. */
    method Pass(show: string -> string, stop: bool, ghost run: Pass, ghost k: nat, ghost final: WorkerEnd)
      requires runner.Ready() && runner.lockin.connected && runner.awg.connected && queue != [] && runningPP
      requires Models(run, runner.config, queue[0], repeatArb)
      requires stop <==> k == 0
      requires Loop(run, show, k, runner.bench.events, runner.bench.awgReplies, runner.bench.lockinReplies,
                    console.lines, signals) == final
      modifies this`signals, this`runningPP, runner.bench`events, runner.bench`awgReplies, runner.bench`lockinReplies, console
      ensures runningPP ==> 0 < k && Loop(run, show, k - 1, runner.bench.events, runner.bench.awgReplies,
                                          runner.bench.lockinReplies, console.lines, signals) == final
      ensures !runningPP ==> WorkerEnd(signals, runningPP, runner.bench.events, runner.bench.awgReplies,
                                       runner.bench.lockinReplies, console.lines) == final
    {
      ghost var e, a, s, l, g := runner.bench.events, runner.bench.awgReplies,
                                 runner.bench.lockinReplies, console.lines, signals;
      LoopStep(run, show, k, e, a, s, l, g);
      signals := signals + [QueueColor(Green)];
      var raised := RunHead(run);
      if raised.Some? {
        signals := signals + [Progress(ErrorMessage(show(raised.value), raised.value)), QueueColor(Red)];
        runningPP := false;
      }
      StepShape(g, raised, show);
      if stop {
        StopEarly();
      }
    }
  }
}
