/** What goes over the wires. The three instruments of the bench — the
  * arbitrary-waveform generator (VISA), the lock-in amplifier (raw TCP) and
  * the RHK R9 STM controller (TCP) — are replaced by one shared, ordered log
  * of everything sent to any of them, and one script of replies per
  * instrument. A reply is text or the exception the transport raised. */
module Transport {
  import opened Results
  import opened Text

  /** The variable part of a command line, as Python formats it;
    * `ChannelName(n)` is the word `CH{n}`. */
  datatype Arg = NoArg | Word(text: string) | Num(value: real) | NoneValue | ChannelName(ch: nat)

  /** The argument as an f-string prints it; `show` is Python's `str` of a
    * float. */
  function ArgText(a: Arg, show: real -> string): string {
    match a
    case NoArg => ""
    case Word(t) => t
    case Num(v) => show(v)
    case NoneValue => "None"
    case ChannelName(ch) => "CH" + NatText(ch)
  }

  /** An SCPI header: fixed text, or text with a channel number spliced in
    * (`SOURce{ch}:VOLT` is `OnChannel("SOURce", ch, ":VOLT")`). */
  datatype Header = Fixed(text: string) | OnChannel(keyword: string, ch: nat, rest: string)

  /** The header as it goes over the wire. */
  function HeaderText(h: Header): string {
    match h
    case Fixed(t) => t
    case OnChannel(k, ch, rest) => k + NatText(ch) + rest
  }

  /** An SCPI message to the AWG: a header and an argument, or a header
    * followed by a binary block of single-precision samples. */
  datatype Scpi = Command(header: Header, arg: Arg) | BinaryBlock(header: Header, values: seq<real>)

  /** The command line the drivers hand to `write`: the header, then a
    * space and the argument when there is one. A binary block goes out
    * through `write_binary_values`, never through `write`; its text here is
    * the header. */
  function ScpiText(c: Scpi, show: real -> string): string {
    match c
    case Command(h, NoArg) => HeaderText(h)
    case Command(h, a) => HeaderText(h) + " " + ArgText(a, show)
    case BinaryBlock(h, _) => HeaderText(h)
  }

  /** A line of the R9 remote protocol: comma-separated fields, an optional
    * trailing value, and whether the line ends in a newline. */
  datatype R9Msg = R9Msg(fields: seq<string>, value: Arg, newline: bool)

  datatype Event = ToAwg(cmd: Scpi) | ToLockIn(text: string) | ToStm(msg: R9Msg)

  datatype Reply = Data(text: string) | Failure(error: string)

  /** The Result a driver builds from a reply: the text, or the exception's
    * text with `err` set. */
  function AsResult(r: Reply): Result {
    match r
    case Data(t) => Result(t, false)
    case Failure(e) => Result(e, true)
  }

  /** What a socket yields once its peer has nothing more to say. */
  const Silence: string := ""
  /** What a VISA query yields when the instrument does not answer. */
  const VisaTimeout: Reply :=
    Failure("VisaIOError(" + "'VI_ERROR_TMO (-1073807339): Timeout expired before operation completed.')")

  // ------------------------------------------------------------ scripts

  /** The next reply of a script, or `quiet` once it is used up. */
  function Head<T>(script: seq<T>, quiet: T): T {
    if script == [] then quiet else script[0]
  }

  function Tail<T>(script: seq<T>): seq<T> {
    if script == [] then [] else script[1..]
  }

  /** The `k`-th reply from now (0-based), `quiet` past the end. */
  function ReplyAt<T>(script: seq<T>, k: nat, quiet: T): T {
    if k < |script| then script[k] else quiet
  }

  /** The script after `k` replies have been consumed. */
  function Skip<T>(script: seq<T>, k: nat): seq<T> {
    if k >= |script| then [] else script[k..]
  }

  /** Skipping `a` replies and then `b` more skips `a + b`. */
  lemma SkipSkip<T>(script: seq<T>, a: nat, b: nat)
    ensures Skip(Skip(script, a), b) == Skip(script, a + b)
  {
  }

  /** Consuming one more reply from a partly used script yields the next one
    * in order. */
  lemma SkipStep<T>(script: seq<T>, k: nat, quiet: T)
    ensures Head(Skip(script, k), quiet) == ReplyAt(script, k, quiet)
    ensures Tail(Skip(script, k)) == Skip(script, k + 1)
  {
  }

  /** Dropping one reply and then `k` more drops `k + 1`. */
  lemma TailSkip<T>(script: seq<T>, k: nat)
    ensures Skip(Tail(script), k) == Skip(script, k + 1)
  {
  }

  lemma SkipZero<T>(script: seq<T>)
    ensures Skip(script, 0) == script
  {
  }

  /** `n` back-to-back copies of `s`. */
  function Repeat<T>(s: seq<T>, n: nat): seq<T> {
    if n == 0 then [] else Repeat(s, n - 1) + s
  }

  /** Copies concatenate: `m` copies followed by `n` copies are `m + n`
    * copies. */
  lemma {:induction false} RepeatAdd<T>(s: seq<T>, m: nat, n: nat)
    ensures Repeat(s, m) + Repeat(s, n) == Repeat(s, m + n)
    decreases n
  {
    if n > 0 {
      RepeatAdd(s, m, n - 1);
      assert Repeat(s, m) + Repeat(s, n) == (Repeat(s, m) + Repeat(s, n - 1)) + s;
    }
  }

  /** `n` copies of `s` are `n` times as long. */
  lemma {:induction false} RepeatLength<T>(s: seq<T>, n: nat)
    ensures |Repeat(s, n)| == n * |s|
  {
    if n > 0 {
      RepeatLength(s, n - 1);
    }
  }

  /** Every element of `n` copies of a one-element sequence is that
    * element. */
  lemma {:induction false} RepeatSingle<T>(e: T, n: nat)
    ensures |Repeat([e], n)| == n
    ensures forall k :: 0 <= k < n ==> Repeat([e], n)[k] == e
  {
    if n > 0 {
      RepeatSingle(e, n - 1);
      assert Repeat([e], n) == Repeat([e], n - 1) + [e];
    }
  }

  /** Reading the `j`-th reply after `d` have been consumed reads the
    * `d + j`-th. */
  lemma SkipReplyAt<T>(script: seq<T>, d: nat, j: nat, quiet: T)
    ensures ReplyAt(Skip(script, d), j, quiet) == ReplyAt(script, d + j, quiet)
  {
  }

  /** A log that grew by `more` after holding `base + sent` holds `base`
    * followed by everything sent so far. */
  lemma Appended<T>(log: seq<T>, base: seq<T>, sent: seq<T>, more: seq<T>)
    requires log == (base + sent) + more
    ensures log == base + (sent + more)
  {
  }

  /** The same, for a log that grew twice. */
  lemma Appended2<T>(log: seq<T>, base: seq<T>, sent: seq<T>, m1: seq<T>, m2: seq<T>)
    requires log == ((base + sent) + m1) + m2
    ensures log == base + ((sent + m1) + m2)
  {
  }

  /** The same, for a log that grew four times. */
  lemma Appended4<T>(log: seq<T>, base: seq<T>, m1: seq<T>, m2: seq<T>, m3: seq<T>, m4: seq<T>)
    requires log == base + m1 + m2 + m3 + m4
    ensures log == base + (m1 + m2 + m3 + m4)
  {
  }

  /** Swapping the last two parts of a log keeps what it holds. */
  lemma SwapTail<T>(m: seq<T>, y: seq<T>, c: seq<T>)
    ensures multiset(m + y + c) == multiset(m + c + y)
  {
    assert multiset(m + y + c) == multiset(m) + multiset(y) + multiset(c);
    assert multiset(m + c + y) == multiset(m) + multiset(c) + multiset(y);
  }

  /** After one reply has been consumed, the `k`-th reply from now is the
    * `k + 1`-th from before. */
  lemma ReplyAtTail<T>(script: seq<T>, k: nat, quiet: T)
    ensures ReplyAt(Tail(script), k, quiet) == ReplyAt(script, k + 1, quiet)
  {
  }

  /** The shared bench: the log of everything sent, and what each instrument
    * will answer. */
  class Bench {
    var events: seq<Event>
    var awgReplies: seq<Reply>
    var lockinReplies: seq<Reply>
    var stmReplies: seq<string>

    constructor (awg: seq<Reply>, lockin: seq<Reply>, stm: seq<string>)
      ensures events == [] && awgReplies == awg && lockinReplies == lockin && stmReplies == stm
    {
      events := [];
      awgReplies := awg;
      lockinReplies := lockin;
      stmReplies := stm;
    }

    method Put(e: Event)
      modifies this`events
      ensures events == old(events) + [e]
    {
      events := events + [e];
    }

    /** `es` one after the other. */
    method PutAll(es: seq<Event>)
      modifies this`events
      ensures events == old(events) + es
    {
      var i := 0;
      while i < |es|
        invariant 0 <= i <= |es|
        invariant events == old(events) + es[..i]
      {
        Put(es[i]);
        assert es[..i + 1] == es[..i] + [es[i]];
        i := i + 1;
      }
      assert es[..i] == es;
    }

    method TakeAwg() returns (r: Reply)
      modifies this`awgReplies
      ensures r == Head(old(awgReplies), VisaTimeout) && awgReplies == Tail(old(awgReplies))
    {
      r := Head(awgReplies, VisaTimeout);
      awgReplies := Tail(awgReplies);
    }

    method TakeLockIn() returns (r: Reply)
      modifies this`lockinReplies
      ensures r == Head(old(lockinReplies), Data(Silence)) && lockinReplies == Tail(old(lockinReplies))
    {
      r := Head(lockinReplies, Data(Silence));
      lockinReplies := Tail(lockinReplies);
    }

    method TakeStm() returns (r: string)
      modifies this`stmReplies
      ensures r == Head(old(stmReplies), Silence) && stmReplies == Tail(old(stmReplies))
    {
      r := Head(stmReplies, Silence);
      stmReplies := Tail(stmReplies);
    }
  }

  // ------------------------------------------------- R9 command lines

  /** `SetHWParameter, Z PI Controller 1, Tip Control, {mode}`. */
  function TipControlMsg(mode: string): R9Msg {
    R9Msg(["SetHWParameter", "Z PI Controller 1", "Tip Control", mode], NoArg, true)
  }

  /** `SetSWParameter, STM Bias, Value, {bias}`. */
  function SetBiasMsg(bias: Arg): R9Msg {
    R9Msg(["SetSWParameter", "STM Bias", "Value"], bias, true)
  }

  /** `GetSWParameter, STM Bias, Value`. */
  const GetBiasMsg: R9Msg := R9Msg(["GetSWParameter", "STM Bias", "Value"], NoArg, true)
}
