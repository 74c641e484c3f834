/** The scripted procedures of the RHK R9 STM controller (the `RHK` class of
  * src/RHK.py): unit-converting setters, the scan-speed modes, the coarse
  * step-out, the move to the start of the image, the coarse approach and the
  * scan-time estimate.
  *
  * The controller's socket is the `sent` log plus a `replies` script; a
  * socket whose peer has nothing more to say yields the empty text. The
  * `Cancel` flag is set by the user interface from another thread: here
  * `clickAfter` says after how many more reads of the flag the click lands
  * (`None`: never). Every `time.sleep` is appended to `sleeps`. */
module Rhk {
  import opened Results
  import opened Numeric
  import opened Text
  import opened Transport

  // ------------------------------------------------------------ units

  /** pA to A: the R9 takes the current setpoint in amperes. */
  function Amperes(pA: real): (a: real)
    ensures a * 1000000000000.0 == pA
  {
    pA * 0.000000000001
  }

  /** nm to m (offsets, tip speed). */
  function Metres(nm: real): (m: real)
    ensures m * 1000000000.0 == nm
  {
    nm * 0.000000001
  }

  /** µm/s to m/s (integral gain). */
  function MetresPerSecond(umps: real): (v: real)
    ensures v * 1000000.0 == umps
  {
    umps * 0.000001
  }

  // ------------------------------------------------------------ lines

  function SetPointMsg(amperes: real): R9Msg {
    R9Msg(["SetHWSubParameter", "Z PI Controller 1", "Set Point", "Value"], Num(amperes), true)
  }

  /** `SetSWParameter, Scan Area Window, {axis} Offset, {metres}`. */
  function OffsetMsg(axis: string, metres: real): R9Msg {
    R9Msg(["SetSWParameter", "Scan Area Window", axis + " Offset"], Num(metres), true)
  }

  function IntegralGainMsg(gain: real): R9Msg {
    R9Msg(["SetHWSubParameter", "Z PI Controller 1", "Integral Gain"], Num(gain), true)
  }

  /** `Image Navigation Speed` is sent without a trailing newline. */
  function NavigationMsg(mode: string): R9Msg {
    R9Msg(["SetSWParameter", "Scan Area Window", "Image Navigation Speed", mode], NoArg, false)
  }

  function ScanSpeedMsg(speed: real): R9Msg {
    R9Msg(["SetSWParameter", "Scan Area Window", "Scan Speed"], Num(speed), true)
  }

  /** `SetSWParameter, Scan Area Window, Tip {axis} in scan coordinates, {v}`. */
  function TipMsg(axis: string, v: real): R9Msg {
    R9Msg(["SetSWParameter", "Scan Area Window", "Tip " + axis + " in scan coordinates"], Num(v), true)
  }

  function StartMsg(procedure: string): R9Msg {
    R9Msg(["StartProcedure", procedure], NoArg, true)
  }

  function StopMsg(procedure: string): R9Msg {
    R9Msg(["StopProcedure", procedure], NoArg, true)
  }

  /** `GetSWParameter, Scan Area Window, {name}`. */
  function WindowQuery(name: string): R9Msg {
    R9Msg(["GetSWParameter", "Scan Area Window", name], NoArg, true)
  }

  /** `GetSWSubItemParameter, Scan Area Window, Scan Settings, {name}`. */
  function SettingQuery(name: string): R9Msg {
    R9Msg(["GetSWSubItemParameter", "Scan Area Window", "Scan Settings", name], NoArg, true)
  }

  /** `GetHWSubParameter, Z PI Controller 1, {bound} Bound, Value`. */
  function BoundQuery(bound: string): R9Msg {
    R9Msg(["GetHWSubParameter", "Z PI Controller 1", bound + " Bound", "Value"], NoArg, true)
  }

  const ZQuery: R9Msg := R9Msg(["ReadChannelValue", "z0-src"], NoArg, true)
  const StepOut: string := "Pan Single Step Out"
  const StepIn: string := "Pan Single Step In"

  /** Two heights closer than this are taken as equal (`1e-9`). */
  const Tolerance: real := 0.000000001

  // ------------------------------------------------------------ replies

  /** What `float(Socket.recv(...))` yields. */
  datatype Read = Value(v: real) | Raised(error: string)

  function FloatError(t: string): string {
    "ValueError(\"could not convert string to float: " + BytesRepr(t) + "\")"
  }

  const ZeroDivision: string := "ZeroDivisionError('float division by zero')"
  const NegativeSleep: string := "ValueError('sleep length must be non-negative')"

  /** A reply read as a number: its value, or the exception the receive or
    * the conversion raised. An exhausted socket gives the empty text,
    * which does not convert. */
  function ReadOf(r: Reply): (x: Read)
    ensures r.Failure? ==> x == Raised(r.error)
    ensures r == Data(Silence) ==> x == Raised(FloatError(Silence))
  {
    match r
    case Failure(e) => Raised(e)
    case Data(t) =>
      match ParseFloat(t)
      case None => Raised(FloatError(t))
      case Some(v) => Value(v)
  }

  /** The exception a plain `Socket.recv` raised, if any. */
  function RaisedBy(r: Reply): (e: Option<string>)
    ensures e.Some? <==> r.Failure?
  {
    if r.Failure? then Some(r.error) else None
  }

  /** The exception a `float(Socket.recv(...))` raised, if any. */
  function ReadError(r: Reply): (e: Option<string>)
    ensures e.None? <==> ReadOf(r).Value?
    ensures e.Some? ==> ReadOf(r) == Raised(e.value)
  {
    match ReadOf(r)
    case Raised(error) => Some(error)
    case Value(_) => None
  }

  /** Of two steps run one after the other, the exception that ends the
    * sequence: the first step's if it raised, else the second's. */
  function OrElse(first: Option<string>, second: Option<string>): (e: Option<string>)
    ensures e.None? <==> first.None? && second.None?
    ensures first.Some? ==> e == first
  {
    if first.Some? then first else second
  }

  /** The `k`-th reply from now; the empty text once the script runs out. */
  function At(script: seq<Reply>, k: nat): Reply {
    ReplyAt(script, k, Data(Silence))
  }

  // ------------------------------------------------------------ outcomes

  /** What the "nm/s" branch raises: the receive after the navigation mode
    * or the one after the speed. */
  function TipSpeedError(script: seq<Reply>): (e: Option<string>)
    ensures e.None? <==> At(script, 0).Data? && At(script, 1).Data?
  {
    OrElse(RaisedBy(At(script, 0)), RaisedBy(At(script, 1)))
  }

  /** What the "s/line" branch raises: the navigation receive, the size
    * read, the division `Size/Speed`, or the speed's receive. */
  function LineSpeedError(script: seq<Reply>, speed: real): (e: Option<string>)
    ensures e.None? <==>
      At(script, 0).Data? && ReadOf(At(script, 1)).Value? && speed != 0.0 && At(script, 2).Data?
    ensures (At(script, 0).Data? && ReadOf(At(script, 1)).Value? && speed == 0.0) ==> e == Some(ZeroDivision)
  {
    OrElse(RaisedBy(At(script, 0)),
      OrElse(ReadError(At(script, 1)),
        if speed == 0.0 then Some(ZeroDivision) else RaisedBy(At(script, 2))))
  }

  /** What the "ms/pixel" branch raises: the navigation receive, the two
    * reads, the division by `NPixels*Speed/1000`, or the speed's receive. */
  function PixelSpeedError(script: seq<Reply>, speed: real): (e: Option<string>)
    ensures e.None? <==>
      At(script, 0).Data? && ReadOf(At(script, 1)).Value? && ReadOf(At(script, 2)).Value?
      && LineSeconds(ReadOf(At(script, 1)).v, speed) != 0.0 && At(script, 3).Data?
    ensures (At(script, 0).Data? && ReadOf(At(script, 1)).Value? && ReadOf(At(script, 2)).Value?
             && LineSeconds(ReadOf(At(script, 1)).v, speed) == 0.0) ==> e == Some(ZeroDivision)
  {
    var pixels := ReadOf(At(script, 1));
    OrElse(RaisedBy(At(script, 0)),
      OrElse(ReadError(At(script, 1)),
        OrElse(ReadError(At(script, 2)),
          if pixels.Value? && LineSeconds(pixels.v, speed) == 0.0 then Some(ZeroDivision)
          else RaisedBy(At(script, 3)))))
  }

  /** What reading the window back raises: the first of its four reads
    * that fails. */
  function WindowError(script: seq<Reply>): (e: Option<string>)
    ensures e.None? <==>
      ReadOf(At(script, 0)).Value? && ReadOf(At(script, 1)).Value?
      && ReadOf(At(script, 2)).Value? && ReadOf(At(script, 3)).Value?
  {
    OrElse(ReadError(At(script, 0)),
      OrElse(ReadError(At(script, 1)),
        OrElse(ReadError(At(script, 2)), ReadError(At(script, 3)))))
  }

  /** What sending the tip raises: the first of its three receives that
    * fails. */
  function MoveTipError(script: seq<Reply>): (e: Option<string>)
    ensures e.None? <==> At(script, 0).Data? && At(script, 1).Data? && At(script, 2).Data?
  {
    OrElse(RaisedBy(At(script, 0)), OrElse(RaisedBy(At(script, 1)), RaisedBy(At(script, 2))))
  }

  /** What the opening of `Approach` raises: the two bound reads, the
    * receive after `Unlimit`, or the height read; the sleep cannot fail. */
  function BoundsError(script: seq<Reply>): (e: Option<string>)
    ensures e.None? <==>
      ReadOf(At(script, 0)).Value? && ReadOf(At(script, 1)).Value?
      && At(script, 2).Data? && ReadOf(At(script, 3)).Value?
  {
    OrElse(ReadError(At(script, 0)),
      OrElse(ReadError(At(script, 1)),
        OrElse(RaisedBy(At(script, 2)), ReadError(At(script, 3)))))
  }

  /** What the scan-time estimate raises: the first of its three reads that
    * fails. */
  function ScanTimeError(script: seq<Reply>): (e: Option<string>)
    ensures e.None? <==>
      ReadOf(At(script, 0)).Value? && ReadOf(At(script, 1)).Value? && ReadOf(At(script, 2)).Value?
  {
    OrElse(ReadError(At(script, 0)), OrElse(ReadError(At(script, 1)), ReadError(At(script, 2))))
  }

  // ------------------------------------------------------------ waits

  /** The sleeps of the countdown `while w > 1: w -= 1; sleep(1)` followed
    * by `sleep(w)`. */
  function Countdown(w: real): seq<real>
    decreases if w > 1.0 then w.Floor else 0
  {
    if w > 1.0 then [1.0] + Countdown(w - 1.0) else [w]
  }

  function Total(s: seq<real>): real {
    if s == [] then 0.0 else s[0] + Total(s[1..])
  }

  /** The countdown waits exactly `w` in all: whole seconds while more than
    * one remains, then the remainder, which is at most one second (and
    * positive when `w` is). */
  lemma {:induction false} CountdownTotal(w: real)
    ensures Total(Countdown(w)) == w
    ensures |Countdown(w)| >= 1
    ensures forall k :: 0 <= k < |Countdown(w)| - 1 ==> Countdown(w)[k] == 1.0
    ensures Countdown(w)[|Countdown(w)| - 1] <= 1.0
    ensures w > 0.0 ==> Countdown(w)[|Countdown(w)| - 1] > 0.0
    decreases if w > 1.0 then w.Floor else 0
  {
    if w > 1.0 {
      CountdownTotal(w - 1.0);
      var rest := Countdown(w - 1.0);
      assert Countdown(w) == [1.0] + rest;
      assert Countdown(w)[1..] == rest;
    }
  }

  // ------------------------------------------------------------ scan time

  /** `2·(Lines + OverScanCount)·LineTime`. */
  function ScanTime(lines: real, overScan: real, lineTime: real): real {
    2.0 * (lines + overScan) * lineTime
  }

  /** The time to trace `n` lines, each forward and then back. */
  function RoundTrips(n: nat, lineTime: real): real {
    if n == 0 then 0.0 else RoundTrips(n - 1, lineTime) + lineTime + lineTime
  }

  lemma {:induction false} RoundTripsLinear(n: nat, lineTime: real)
    ensures RoundTrips(n, lineTime) == 2.0 * (n as real) * lineTime
  {
    if n > 0 {
      RoundTripsLinear(n - 1, lineTime);
    }
  }

  /** The estimate is the time of one forward and one backward trace of every
    * line of the frame and of every over-scan line. */
  lemma ScanTimeCountsRoundTrips(lines: nat, overScan: nat, lineTime: real)
    ensures ScanTime(lines as real, overScan as real, lineTime) == RoundTrips(lines + overScan, lineTime)
  {
    RoundTripsLinear(lines + overScan, lineTime);
  }

  // ------------------------------------------------------------ geometry

  /** The time of one line of `pixels` pixels at `msPerPixel` ms each,
    * in seconds: `NPixels·Speed/1000`. */
  function LineSeconds(pixels: real, msPerPixel: real): (t: real)
    ensures t * 1000.0 == pixels * msPerPixel
  {
    pixels * msPerPixel / 1000.0
  }

  /** The rotate angle, size and centre of the scan window, as read back. */
  datatype Window = Window(angle: real, size: real, xOffset: real, yOffset: real)

  /** The corner of the scan window where a scan starts, for the cosine `c`
    * and sine `s` of the window's angle. */
  function Corner(c: real, s: real, size: real, xOffset: real, yOffset: real): (real, real) {
    (c * size / 2.0 - s * size / 2.0 + xOffset, s * size / 2.0 + c * size / 2.0 + yOffset)
  }

  /** The start point lies half a diagonal away from the window's centre,
    * whatever the angle. */
  lemma CornerOnDiagonal(c: real, s: real, size: real, xOffset: real, yOffset: real)
    requires c * c + s * s == 1.0
    ensures var p := Corner(c, s, size, xOffset, yOffset);
      (p.0 - xOffset) * (p.0 - xOffset) + (p.1 - yOffset) * (p.1 - yOffset) == size * size / 2.0
  {
    var h := size / 2.0;
    var p := Corner(c, s, size, xOffset, yOffset);
    assert p.0 - xOffset == (c - s) * h;
    assert p.1 - yOffset == (s + c) * h;
    calc {
      ((c - s) * h) * ((c - s) * h) + ((s + c) * h) * ((s + c) * h);
      ((c - s) * (c - s) + (s + c) * (s + c)) * (h * h);
      (2.0 * (c * c + s * s)) * (h * h);
      2.0 * (h * h);
    }
  }

  /** The choice passed as `HowToSetSpeed`: one of the offered names, or the
    * default argument, which is the list of names itself. */
  datatype Choice = Picked(name: string) | Offered(names: seq<string>)

  const SpeedChoices: Choice := Offered(["nm/s", "s/line", "ms/pixel"])

  /** The `RHK` object together with the controller's socket. */
  class Stm {
    var cancel: bool
    var clickAfter: Option<nat>
    var sent: seq<R9Msg>
    var replies: seq<Reply>
    var sleeps: seq<real>

    /** Not cancelled; nothing sent or slept yet. */
    constructor (script: seq<Reply>, click: Option<nat>)
      ensures !cancel && clickAfter == click
      ensures sent == [] && replies == script && sleeps == []
    {
      cancel := false;
      clickAfter := click;
      sent := [];
      replies := script;
      sleeps := [];
    }

    /** One read of `self.Cancel`; the stop click lands when its count runs
      * out, and the flag then stays set. */
    method CancelRequested() returns (c: bool)
      modifies this`cancel, this`clickAfter
      ensures c == cancel
      ensures old(cancel) ==> cancel
      ensures old(clickAfter).None? ==> clickAfter.None? && cancel == old(cancel)
    {
      if clickAfter == Some(0) {
        cancel := true;
        clickAfter := None;
      } else if clickAfter.Some? {
        clickAfter := Some(clickAfter.value - 1);
      }
      c := cancel;
    }

    /** `Socket.recv`: the next reply of the script, the empty text once it
      * is used up. */
    method Recv() returns (r: Reply)
      modifies this`replies
      ensures r == Head(old(replies), Data(Silence)) && replies == Tail(old(replies))
      ensures r.Failure? ==> |replies| < |old(replies)|
    {
      r := Head(replies, Data(Silence));
      replies := Tail(replies);
    }

    /** Send a line and wait for its acknowledgement. */
    method Exchange(m: R9Msg) returns (raised: Option<string>)
      modifies this`sent, this`replies
      ensures sent == old(sent) + [m] && replies == Tail(old(replies))
      ensures raised == RaisedBy(Head(old(replies), Data(Silence)))
    {
      sent := sent + [m];
      var r := Recv();
      raised := RaisedBy(r);
    }

    /** Send a query and convert the answer with `float`. */
    method Query(m: R9Msg) returns (x: Read)
      modifies this`sent, this`replies
      ensures sent == old(sent) + [m] && replies == Tail(old(replies))
      ensures x == ReadOf(Head(old(replies), Data(Silence)))
      ensures x.Value? ==> |replies| < |old(replies)|
    {
      sent := sent + [m];
      var r := Recv();
      x := ReadOf(r);
    }

    /** `time.sleep(t)`, which refuses a negative length. */
    method Sleep(t: real) returns (raised: Option<string>)
      modifies this`sleeps
      ensures t >= 0.0 ==> raised.None? && sleeps == old(sleeps) + [t]
      ensures t < 0.0 ==> raised == Some(NegativeSleep) && sleeps == old(sleeps)
    {
      if t < 0.0 {
        raised := Some(NegativeSleep);
      } else {
        sleeps := sleeps + [t];
        raised := None;
      }
    }

    // ---------------------------------------------------------- setters

    /** `Set_Setpoint`: the setpoint is given in pA and sent in A. */
    method SetSetpoint(setpoint: real) returns (raised: Option<string>)
      modifies this`sent, this`replies
      ensures sent == old(sent) + [SetPointMsg(Amperes(setpoint))] && replies == Tail(old(replies))
      ensures raised == RaisedBy(Head(old(replies), Data(Silence)))
    {
      raised := Exchange(SetPointMsg(Amperes(setpoint)));
    }

    /** `Set_Scan_Window_Position`: the X offset, then the Y offset, both
      * given in nm and sent in m. */
    method SetScanWindowPosition(x: real, y: real) returns (raised: Option<string>)
      modifies this`sent, this`replies
      ensures RaisedBy(Head(old(replies), Data(Silence))).Some? ==>
        raised == RaisedBy(Head(old(replies), Data(Silence))) && sent == old(sent) + [OffsetMsg("X", Metres(x))]
      ensures RaisedBy(Head(old(replies), Data(Silence))).None? ==>
        raised == RaisedBy(ReplyAt(old(replies), 1, Data(Silence)))
        && sent == old(sent) + [OffsetMsg("X", Metres(x)), OffsetMsg("Y", Metres(y))]
    {
      raised := Exchange(OffsetMsg("X", Metres(x)));
      if raised.None? {
        raised := Exchange(OffsetMsg("Y", Metres(y)));
      }
    }

    /** `Set_Integral_Gain`: given in µm/s, sent in m/s. */
    method SetIntegralGain(gain: real) returns (raised: Option<string>)
      modifies this`sent, this`replies
      ensures sent == old(sent) + [IntegralGainMsg(MetresPerSecond(gain))] && replies == Tail(old(replies))
      ensures raised == RaisedBy(Head(old(replies), Data(Silence)))
    {
      raised := Exchange(IntegralGainMsg(MetresPerSecond(gain)));
    }

    /** "nm/s": the tip speed, given in nm/s and sent in m/s. */
    method TipSpeed(speed: real) returns (raised: Option<string>)
      modifies this`sent, this`replies
      ensures raised == TipSpeedError(old(replies))
      ensures raised.None? ==> sent == old(sent) + [NavigationMsg("Tip Speed"), ScanSpeedMsg(Metres(speed))]
    {
      ReplyAtTail(old(replies), 0, Data(Silence));
      raised := Exchange(NavigationMsg("Tip Speed"));
      if raised.None? {
        raised := Exchange(ScanSpeedMsg(Metres(speed)));
      }
    }

    /** "s/line": read the window size and send the speed that crosses it in
      * `speed` seconds. */
    method LineSpeed(speed: real) returns (raised: Option<string>)
      modifies this`sent, this`replies
      ensures raised == LineSpeedError(old(replies), speed)
      ensures raised.None? ==>
        var size := ReadOf(ReplyAt(old(replies), 1, Data(Silence)));
        size.Value? && speed != 0.0
        && sent == old(sent) + [NavigationMsg("Image Speed"), WindowQuery("Scan Area Size"), ScanSpeedMsg(size.v / speed)]
      ensures speed == 0.0 && RaisedBy(Head(old(replies), Data(Silence))).None?
              && ReadOf(ReplyAt(old(replies), 1, Data(Silence))).Value? ==>
        raised == Some(ZeroDivision)
    {
      ReplyAtTail(old(replies), 0, Data(Silence));
      raised := Exchange(NavigationMsg("Image Speed"));
      if raised.Some? {
        return;
      }
      var size := Query(WindowQuery("Scan Area Size"));
      if size.Raised? {
        return Some(size.error);
      }
      if speed == 0.0 {
        return Some(ZeroDivision);
      }
      raised := Exchange(ScanSpeedMsg(size.v / speed));
    }

    /** "ms/pixel": read the lines per frame and the window size and send the
      * speed that spends `speed` ms on each pixel. */
    method PixelSpeed(speed: real) returns (raised: Option<string>)
      modifies this`sent, this`replies
      ensures raised == PixelSpeedError(old(replies), speed)
      ensures raised.None? ==>
        var pixels := ReadOf(ReplyAt(old(replies), 1, Data(Silence)));
        var size := ReadOf(ReplyAt(old(replies), 2, Data(Silence)));
        pixels.Value? && size.Value?
        && var line := LineSeconds(pixels.v, speed);
        line != 0.0
        && sent == old(sent) + [NavigationMsg("Image Speed"), SettingQuery("Lines Per Frame"),
                                WindowQuery("Scan Area Size"), ScanSpeedMsg(size.v / line)]
    {
      ReplyAtTail(old(replies), 0, Data(Silence));
      ReplyAtTail(old(replies), 1, Data(Silence));
      ReplyAtTail(old(replies), 2, Data(Silence));
      raised := Exchange(NavigationMsg("Image Speed"));
      if raised.Some? {
        return;
      }
      var pixels, size;
      raised, pixels, size := ReadPair(SettingQuery("Lines Per Frame"), WindowQuery("Scan Area Size"));
      if raised.Some? {
        return;
      }
      var line := LineSeconds(pixels, speed);
      if line == 0.0 {
        return Some(ZeroDivision);
      }
      raised := Exchange(ScanSpeedMsg(size / line));
      TailSkip(Tail(old(replies)), 2);
      SkipReplyAt(old(replies), 3, 0, Data(Silence));
    }

    /** Two queries in a row, each answer read with `float`. */
    method ReadPair(first: R9Msg, second: R9Msg) returns (raised: Option<string>, a: real, b: real)
      modifies this`sent, this`replies
      ensures raised == OrElse(ReadError(At(old(replies), 0)), ReadError(At(old(replies), 1)))
      ensures raised.None? ==>
        ReadOf(At(old(replies), 0)) == Value(a) && ReadOf(At(old(replies), 1)) == Value(b)
        && sent == old(sent) + [first, second] && replies == Skip(old(replies), 2)
    {
      a, b := 0.0, 0.0;
      SkipZero(old(replies));
      SkipStep(old(replies), 0, Data(Silence));
      SkipStep(old(replies), 1, Data(Silence));
      var x := Query(first);
      if x.Raised? {
        return Some(x.error), a, b;
      }
      var y := Query(second);
      if y.Raised? {
        return Some(y.error), a, b;
      }
      raised, a, b := None, x.v, y.v;
    }

    /** `Set_Scan_Speed`: a guarded drain of the socket, then the mode
      * picked; any other choice, the default list among them, sends
      * nothing. */
    method SetScanSpeed(how: Choice, speed: real) returns (raised: Option<string>)
      modifies this`sent, this`replies
      ensures how !in {Picked("nm/s"), Picked("s/line"), Picked("ms/pixel")} ==>
        raised.None? && sent == old(sent) && replies == Tail(old(replies))
      ensures how == Picked("nm/s") ==> raised == TipSpeedError(Tail(old(replies)))
      ensures how == Picked("s/line") ==> raised == LineSpeedError(Tail(old(replies)), speed)
      ensures how == Picked("ms/pixel") ==> raised == PixelSpeedError(Tail(old(replies)), speed)
      ensures how == Picked("nm/s") && raised.None? ==>
        sent == old(sent) + [NavigationMsg("Tip Speed"), ScanSpeedMsg(Metres(speed))]
      ensures how == Picked("s/line") && raised.None? ==>
        var size := ReadOf(ReplyAt(old(replies), 2, Data(Silence)));
        size.Value? && speed != 0.0
        && sent == old(sent) + [NavigationMsg("Image Speed"), WindowQuery("Scan Area Size"), ScanSpeedMsg(size.v / speed)]
      ensures how == Picked("s/line") && speed == 0.0 && RaisedBy(ReplyAt(old(replies), 1, Data(Silence))).None?
              && ReadOf(ReplyAt(old(replies), 2, Data(Silence))).Value? ==>
        raised == Some(ZeroDivision)
      ensures how == Picked("ms/pixel") && raised.None? ==>
        var pixels := ReadOf(ReplyAt(old(replies), 2, Data(Silence)));
        var size := ReadOf(ReplyAt(old(replies), 3, Data(Silence)));
        pixels.Value? && size.Value?
        && var line := LineSeconds(pixels.v, speed);
        line != 0.0
        && sent == old(sent) + [NavigationMsg("Image Speed"), SettingQuery("Lines Per Frame"),
                                WindowQuery("Scan Area Size"), ScanSpeedMsg(size.v / line)]
    {
      var _ := Recv();
      ReplyAtTail(old(replies), 0, Data(Silence));
      ReplyAtTail(old(replies), 1, Data(Silence));
      ReplyAtTail(old(replies), 2, Data(Silence));
      if how == Picked("nm/s") {
        raised := TipSpeed(speed);
      } else if how == Picked("s/line") {
        raised := LineSpeed(speed);
      } else if how == Picked("ms/pixel") {
        raised := PixelSpeed(speed);
      } else {
        raised := None;
      }
    }

    // ---------------------------------------------------------- motion

    /** `while not self.Cancel: try: recv; break; except: pass` — wait for
      * one reply that is not an exception, unless cancelled first. */
    method AwaitReply()
      modifies this`replies, this`cancel, this`clickAfter
      ensures old(cancel) ==> cancel && replies == old(replies)
      ensures old(clickAfter).None? ==> clickAfter.None? && cancel == old(cancel)
    {
      var c := CancelRequested();
      while !c
        invariant c == cancel
        invariant old(cancel) ==> cancel && replies == old(replies)
        invariant old(clickAfter).None? ==> clickAfter.None? && cancel == old(cancel)
        decreases |replies|
      {
        var r := Recv();
        if r.Data? {
          break;
        }
        c := CancelRequested();
      }
    }

    /** One pass of the `Z_Course_Steps_Out` loop: unless `Cancel` is set,
      * start a step out, wait `waitBetween`, wait for the controller, and
      * stop the procedure if `Cancel` is set by then. */
    method StepOutOnce(waitBetween: real) returns (raised: Option<string>, ghost started: bool, ghost stopped: bool)
      modifies this`sent, this`replies, this`sleeps, this`cancel, this`clickAfter
      ensures started ==> !old(cancel)
      ensures !started ==> cancel && !stopped && raised.None? && sent == old(sent) && sleeps == old(sleeps)
      ensures started ==> sent == old(sent) + [StartMsg(StepOut)] + (if stopped then [StopMsg(StepOut)] else [])
      ensures started && raised.None? ==> sleeps == old(sleeps) + [waitBetween]
      ensures stopped ==> cancel
      ensures old(cancel) ==> cancel
      ensures !old(cancel) && old(clickAfter).None? ==> started && !stopped && !cancel && clickAfter.None?
    {
      raised, started, stopped := None, false, false;
      var c := CancelRequested();
      if c {
        return;
      }
      started := true;
      sent := sent + [StartMsg(StepOut)];
      var r := Recv();
      if r.Failure? {
        return Some(r.error), started, stopped;
      }
      raised := Sleep(waitBetween);
      if raised.Some? {
        return;
      }
      AwaitReply();
      c := CancelRequested();
      if c {
        sent := sent + [StopMsg(StepOut)];
        stopped := true;
        r := Recv();
        raised := RaisedBy(r);
      }
    }

    /** `Z_Course_Steps_Out`: at most `nSteps` "Pan Single Step Out" starts,
      * each followed by a wait of `waitBetween`; once `Cancel` is seen the
      * procedure is stopped and nothing more is started. `steps` counts the
      * starts and `stopped` says whether the stop line was sent. */
    method ZCourseStepsOut(nSteps: int, waitBetween: real) returns (raised: Option<string>, ghost steps: nat, ghost stopped: bool)
      modifies this`sent, this`replies, this`sleeps, this`cancel, this`clickAfter
      ensures steps <= (if nSteps < 0 then 0 else nSteps)
      ensures sent == old(sent) + Repeat([StartMsg(StepOut)], steps) + (if stopped then [StopMsg(StepOut)] else [])
      ensures stopped ==> cancel
      ensures old(cancel) ==> steps == 0 && !stopped && sleeps == old(sleeps)
      ensures raised.None? ==> sleeps == old(sleeps) + Repeat([waitBetween], steps)
      ensures raised.None? && !old(cancel) && old(clickAfter).None? ==>
        steps == (if nSteps < 0 then 0 else nSteps) && !stopped && !cancel
    {
      var _ := Recv();
      raised := None;
      steps, stopped := 0, false;
      var i := 0;
      while i < nSteps
        invariant 0 <= i && steps <= i && i <= (if nSteps < 0 then 0 else nSteps)
        invariant sent == old(sent) + Repeat([StartMsg(StepOut)], steps) + (if stopped then [StopMsg(StepOut)] else [])
        invariant sleeps == old(sleeps) + Repeat([waitBetween], steps)
        invariant stopped ==> cancel
        invariant old(cancel) ==> cancel && steps == 0 && !stopped
        invariant !old(cancel) && old(clickAfter).None? ==> clickAfter.None? && !cancel && steps == i && !stopped
      {
        ghost var started, stop;
        raised, started, stop := StepOutOnce(waitBetween);
        if started {
          steps, stopped := steps + 1, stop;
        }
        if raised.Some? {
          return;
        }
        i := i + 1;
      }
    }

    /** Read back the window's angle, size and offsets. */
    method ReadWindow() returns (raised: Option<string>, w: Window)
      modifies this`sent, this`replies
      ensures raised == WindowError(old(replies))
      ensures raised.None? ==>
        sent == old(sent) + [WindowQuery("Rotate Angle"), WindowQuery("Scan Area Size"),
                             WindowQuery("X Offset"), WindowQuery("Y Offset")]
        && ReadOf(ReplyAt(old(replies), 0, Data(Silence))) == Value(w.angle)
        && ReadOf(ReplyAt(old(replies), 1, Data(Silence))) == Value(w.size)
        && ReadOf(ReplyAt(old(replies), 2, Data(Silence))) == Value(w.xOffset)
        && ReadOf(ReplyAt(old(replies), 3, Data(Silence))) == Value(w.yOffset)
        && replies == Skip(old(replies), 4)
    {
      w := Window(0.0, 0.0, 0.0, 0.0);
      var angle, size, xo, yo;
      raised, angle, size := ReadPair(WindowQuery("Rotate Angle"), WindowQuery("Scan Area Size"));
      if raised.Some? {
        return;
      }
      SkipReplyAt(old(replies), 2, 0, Data(Silence));
      SkipReplyAt(old(replies), 2, 1, Data(Silence));
      SkipSkip(old(replies), 2, 2);
      raised, xo, yo := ReadPair(WindowQuery("X Offset"), WindowQuery("Y Offset"));
      if raised.Some? {
        return;
      }
      w := Window(angle, size, xo, yo);
    }

    /** Send the tip to `p`: X, then Y, then "Move Tip". */
    method SendTip(p: (real, real)) returns (raised: Option<string>)
      modifies this`sent, this`replies
      ensures raised == MoveTipError(old(replies))
      ensures raised.None? ==> sent == old(sent) + [TipMsg("X", p.0), TipMsg("Y", p.1), StartMsg("Move Tip")]
    {
      ReplyAtTail(old(replies), 0, Data(Silence));
      ReplyAtTail(old(replies), 1, Data(Silence));
      ReplyAtTail(Tail(old(replies)), 0, Data(Silence));
      raised := Exchange(TipMsg("X", p.0));
      if raised.None? {
        raised := Exchange(TipMsg("Y", p.1));
        if raised.None? {
          raised := Exchange(StartMsg("Move Tip"));
        }
      }
    }

    /** The countdown of `Move_To_Image_Start`; when never cancelled it
      * sleeps `Countdown(waitTime)`. */
    method WaitOut(waitTime: real) returns (raised: Option<string>)
      modifies this`sleeps, this`cancel, this`clickAfter
      ensures old(cancel) ==> raised.None? && sleeps == old(sleeps)
      ensures raised == (if waitTime >= 0.0 || cancel then None else Some(NegativeSleep))
      ensures !old(cancel) && old(clickAfter).None? ==>
        (raised.None? <==> waitTime >= 0.0) && (raised.None? ==> sleeps == old(sleeps) + Countdown(waitTime))
    {
      var w := waitTime;
      var go := w > 1.0;
      if go {
        var c := CancelRequested();
        go := !c;
      }
      while go
        invariant go ==> w > 1.0
        invariant w >= 0.0 <==> waitTime >= 0.0
        invariant old(cancel) ==> cancel
        invariant old(cancel) ==> cancel && !go && sleeps == old(sleeps)
        invariant !old(cancel) && old(clickAfter).None? ==>
          clickAfter.None? && !cancel && (go <==> w > 1.0)
          && sleeps + Countdown(w) == old(sleeps) + Countdown(waitTime)
          && (w >= 0.0 <==> waitTime >= 0.0)
        decreases if w > 1.0 then w.Floor else 0
      {
        ghost var before := sleeps;
        assert Countdown(w) == [1.0] + Countdown(w - 1.0);
        w := w - 1.0;
        sleeps := sleeps + [1.0];
        assert sleeps + Countdown(w) == before + ([1.0] + Countdown(w));
        go := w > 1.0;
        if go {
          var c := CancelRequested();
          go := !c;
        }
      }
      var c := CancelRequested();
      raised := None;
      if !c {
        raised := Sleep(w);
      }
    }

    /** The first half of `Move_To_Image_Start`: drain a pending reply,
      * read the window and send the tip to its start corner. */
    method AimTip(cos: real -> real, sin: real -> real) returns (raised: Option<string>, w: Window)
      modifies this`sent, this`replies
      ensures raised == OrElse(WindowError(Tail(old(replies))), MoveTipError(Skip(old(replies), 5)))
      ensures raised.None? ==>
        ReadOf(ReplyAt(old(replies), 1, Data(Silence))) == Value(w.angle)
        && ReadOf(ReplyAt(old(replies), 2, Data(Silence))) == Value(w.size)
        && ReadOf(ReplyAt(old(replies), 3, Data(Silence))) == Value(w.xOffset)
        && ReadOf(ReplyAt(old(replies), 4, Data(Silence))) == Value(w.yOffset)
        && var p := Corner(cos(w.angle), sin(w.angle), w.size, w.xOffset, w.yOffset);
        sent == old(sent) + [WindowQuery("Rotate Angle"), WindowQuery("Scan Area Size"),
                             WindowQuery("X Offset"), WindowQuery("Y Offset"),
                             TipMsg("X", p.0), TipMsg("Y", p.1), StartMsg("Move Tip")]
    {
      var _ := Recv();
      ReplyAtTail(old(replies), 0, Data(Silence));
      ReplyAtTail(old(replies), 1, Data(Silence));
      ReplyAtTail(old(replies), 2, Data(Silence));
      ReplyAtTail(old(replies), 3, Data(Silence));
      raised, w := ReadWindow();
      if raised.Some? {
        return;
      }
      TailSkip(old(replies), 4);
      var p := Corner(cos(w.angle), sin(w.angle), w.size, w.xOffset, w.yOffset);
      raised := SendTip(p);
      assert raised == MoveTipError(Skip(old(replies), 5));
    }

    /** `Move_To_Image_Start`: after a guarded drain, read the window, send
      * the tip to its start corner and, unless cancelled, wait for the move
      * to be acknowledged and then for `waitTime` seconds. `cos` and `sin`
      * stand for numpy's, applied to the angle as read. */
    method MoveToImageStart(waitTime: real, cos: real -> real, sin: real -> real) returns (raised: Option<string>, w: Window)
      modifies this`sent, this`replies, this`sleeps, this`cancel, this`clickAfter
      ensures raised.None? ==>
        ReadOf(ReplyAt(old(replies), 1, Data(Silence))) == Value(w.angle)
        && ReadOf(ReplyAt(old(replies), 2, Data(Silence))) == Value(w.size)
        && ReadOf(ReplyAt(old(replies), 3, Data(Silence))) == Value(w.xOffset)
        && ReadOf(ReplyAt(old(replies), 4, Data(Silence))) == Value(w.yOffset)
        && var p := Corner(cos(w.angle), sin(w.angle), w.size, w.xOffset, w.yOffset);
        sent == old(sent) + [WindowQuery("Rotate Angle"), WindowQuery("Scan Area Size"),
                             WindowQuery("X Offset"), WindowQuery("Y Offset"),
                             TipMsg("X", p.0), TipMsg("Y", p.1), StartMsg("Move Tip")]
      ensures raised == OrElse(OrElse(WindowError(Tail(old(replies))), MoveTipError(Skip(old(replies), 5))),
                               if waitTime >= 0.0 || cancel then None else Some(NegativeSleep))
      ensures old(cancel) ==> sleeps == old(sleeps)
      ensures raised.None? && !old(cancel) && old(clickAfter).None? ==> sleeps == old(sleeps) + Countdown(waitTime)
    {
      raised, w := AimTip(cos, sin);
      if raised.Some? {
        return;
      }
      AwaitReply();
      raised := WaitOut(waitTime);
    }

    /** One pass of the approach: a "Pan Single Step In", then the height
      * polled every 0.1 s until two readings agree or `Cancel` is set.
      * Returns the last height read (`z` if none was). */
    method StepAndSettle(z: real) returns (raised: Option<string>, z': real)
      modifies this`sent, this`replies, this`sleeps, this`cancel, this`clickAfter
      ensures |sent| > |old(sent)| && sent[..|old(sent)|] == old(sent) && sent[|old(sent)|] == StartMsg(StepIn)
      ensures raised.None? ==> |replies| < |old(replies)|
      ensures old(cancel) ==> cancel
    {
      z' := z;
      raised := Exchange(StartMsg(StepIn));
      if raised.Some? {
        return;
      }
      var r := Recv();
      if r.Failure? {
        return Some(r.error), z';
      }
      var z0 := Query(ZQuery);
      if z0.Raised? {
        return Some(z0.error), z';
      }
      ghost var measure := |replies|;
      var previous := z0.v;
      var c := CancelRequested();
      while !c
        invariant |replies| <= measure
        invariant |sent| > |old(sent)| && sent[..|old(sent)|] == old(sent) && sent[|old(sent)|] == StartMsg(StepIn)
        invariant old(cancel) ==> cancel
        decreases |replies|
      {
        raised := Sleep(0.1);
        var next := Query(ZQuery);
        if next.Raised? {
          return Some(next.error), z';
        }
        z' := next.v;
        if Abs(z' - previous) < Tolerance {
          break;
        }
        previous := z';
        c := CancelRequested();
      }
    }

    /** The opening of `Approach`: read the upper and lower Z bounds,
      * release the tip, wait 0.01 s and read the height. */
    method ReadBounds() returns (raised: Option<string>, lower: real, z: real)
      modifies this`sent, this`replies, this`sleeps
      ensures raised == BoundsError(old(replies))
      ensures raised.None? ==>
        sent == old(sent) + [BoundQuery("Upper"), BoundQuery("Lower"), TipControlMsg("Unlimit"), ZQuery]
        && ReadOf(At(old(replies), 1)) == Value(lower) && ReadOf(At(old(replies), 3)) == Value(z)
        && sleeps == old(sleeps) + [0.01]
    {
      lower, z := 0.0, 0.0;
      SkipZero(old(replies));
      SkipStep(old(replies), 0, Data(Silence));
      SkipStep(old(replies), 1, Data(Silence));
      SkipStep(old(replies), 2, Data(Silence));
      SkipStep(old(replies), 3, Data(Silence));
      ghost var s0 := sent;
      var mu, ml, mt := BoundQuery("Upper"), BoundQuery("Lower"), TipControlMsg("Unlimit");
      var upper := Query(mu);
      if upper.Raised? {
        return Some(upper.error), lower, z;
      }
      var low := Query(ml);
      if low.Raised? {
        return Some(low.error), lower, z;
      }
      lower := low.v;
      raised := Exchange(mt);
      if raised.Some? {
        return;
      }
      assert sent == s0 + [mu, ml, mt];
      raised := Sleep(0.01);
      var z1 := Query(ZQuery);
      if z1.Raised? {
        return Some(z1.error), lower, z;
      }
      z := z1.v;
    }

    /** `Approach`: after the opening, step in until the height leaves the
      * lower bound or `Cancel` is set. Returns the lower bound and the last
      * height read. */
    method Approach() returns (raised: Option<string>, lower: real, z: real)
      modifies this`sent, this`replies, this`sleeps, this`cancel, this`clickAfter
      ensures raised.None? ==> cancel || Abs(z - lower) >= Tolerance
      ensures raised.None? ==> (|sent| >= |old(sent)| + 4
        && sent[|old(sent)|..|old(sent)| + 4] == [BoundQuery("Upper"), BoundQuery("Lower"), TipControlMsg("Unlimit"), ZQuery])
      ensures raised.None? && old(cancel) ==> |sent| == |old(sent)| + 4
    {
      raised, lower, z := ReadBounds();
      if raised.Some? {
        return;
      }
      ghost var head := sent;
      var go := Abs(z - lower) < Tolerance;
      if go {
        var c := CancelRequested();
        go := !c;
      }
      while go
        invariant |sent| >= |head| && sent[..|head|] == head
        invariant old(cancel) ==> cancel && !go && sent == head
        invariant !go ==> cancel || Abs(z - lower) >= Tolerance
        decreases |replies|
      {
        ghost var before := sent;
        raised, z := StepAndSettle(z);
        if raised.Some? {
          return;
        }
        assert sent[..|head|] == before[..|head|];
        go := Abs(z - lower) < Tolerance;
        if go {
          var c := CancelRequested();
          go := !c;
        }
      }
      assert sent[|old(sent)|..|old(sent)| + 4] == head[|old(sent)|..|old(sent)| + 4];
    }

    /** The scan-time estimate of `PixelScan`, `Scan` and `dIdV_Scan`: read
      * the lines per frame, the line time and the over-scan count. */
    method MeasureScanTime() returns (raised: Option<string>, t: real)
      modifies this`sent, this`replies
      ensures raised == ScanTimeError(old(replies))
      ensures raised.None? ==>
        var lines := ReadOf(ReplyAt(old(replies), 0, Data(Silence)));
        var lineTime := ReadOf(ReplyAt(old(replies), 1, Data(Silence)));
        var overScan := ReadOf(ReplyAt(old(replies), 2, Data(Silence)));
        lines.Value? && lineTime.Value? && overScan.Value?
        && t == ScanTime(lines.v, overScan.v, lineTime.v)
        && sent == old(sent) + [SettingQuery("Lines Per Frame"), WindowQuery("Line Time"), SettingQuery("Over Scan Count")]
      ensures raised.Some? ==> t == 0.0
    {
      t := 0.0;
      SkipZero(old(replies));
      SkipStep(old(replies), 0, Data(Silence));
      SkipStep(old(replies), 1, Data(Silence));
      SkipStep(old(replies), 2, Data(Silence));
      var lines := Query(SettingQuery("Lines Per Frame"));
      if lines.Raised? {
        return Some(lines.error), t;
      }
      var lineTime := Query(WindowQuery("Line Time"));
      if lineTime.Raised? {
        return Some(lineTime.error), t;
      }
      var overScan := Query(SettingQuery("Over Scan Count"));
      if overScan.Raised? {
        return Some(overScan.error), t;
      }
      raised, t := None, ScanTime(lines.v, overScan.v, lineTime.v);
    }
  }
}
