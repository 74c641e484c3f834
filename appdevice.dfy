/** The STM side of src/device.py: the base `STM.connect` and the RHK R9
  * driver the STM pump-probe runner uses. Unlike the packaged driver it does
  * not check acknowledgements: it reads and drops them. */
module AppDevice {
  import opened Results
  import opened Text
  import opened Transport
  import Devices

  /** `GetSWParameter, Scan Area Window, {axis} Offset`, sent without a
    * trailing newline. */
  function OffsetQuery(axis: string): R9Msg {
    R9Msg(["GetSWParameter", "Scan Area Window", axis + " Offset"], NoArg, false)
  }

  /** What `STM.connect` returns: the refusal's text or `Connected`, and in
    * both cases flagged as an error. */
  function ConnectReport(refusal: Option<string>): (r: Result)
    ensures r.err
    ensures refusal.Some? ==> r.msg == refusal.value
    ensures refusal.None? ==> r.msg == "Connected"
  {
    match refusal
    case Some(e) => Result(e, true)
    case None => Result("Connected", true)
  }

  /** Stands for the OSError a send on a socket whose connection was
    * refused raises. Its errno and text depend on the platform (CPython
    * reports the operating system's), so this is a fixed stand-in; only
    * its being raised, not its wording, is modelled. */
  const Unconnected: string := "OSError('socket is not connected')"

  class RhkR9 {
    const bench: Bench
    /** `self._socket is not None`. */
    var handleSet: bool
    /** The socket behind `self._socket` is connected. */
    var linked: bool
    /** A stray attribute `self.socket = None` that the failure path of
      * `connect` sets instead of clearing `self._socket`. */
    var strayNone: bool

    constructor (bench: Bench)
      ensures this.bench == bench && !handleSet && !linked && !strayNone
    {
      this.bench := bench;
      handleSet := false;
      linked := false;
      strayNone := false;
    }

    /** What the first send raises, if anything. */
    function SendError(): Option<string>
      reads this
    {
      if !handleSet then Some(Devices.NoneAttribute("send"))
      else if !linked then Some(Unconnected)
      else None
    }

    /** `connect()`: a socket object is created before the attempt and kept
      * either way; a refusal only sets the stray attribute. */
    method Connect(refusal: Option<string>) returns (r: Result)
      modifies this`handleSet, this`linked, this`strayNone
      ensures handleSet && (linked <==> refusal.None?)
      ensures strayNone == (old(strayNone) || refusal.Some?)
      ensures r == ConnectReport(refusal)
    {
      handleSet := true;
      linked := refusal.None?;
      if refusal.Some? {
        strayNone := true;
      }
      r := ConnectReport(refusal);
    }

    /** `set_tip_control(mode)`: sends the title-cased mode and drops one
      * reply. */
    method SetTipControl(mode: string) returns (raised: Option<string>)
      modifies bench`events, bench`stmReplies
      ensures raised == SendError()
      ensures raised.None? ==> bench.events == old(bench.events) + [ToStm(TipControlMsg(Title(mode)))]
      ensures raised.None? ==> bench.stmReplies == Skip(old(bench.stmReplies), 1)
      ensures raised.Some? ==> bench.events == old(bench.events) && bench.stmReplies == old(bench.stmReplies)
    {
      raised := SendError();
      if raised.Some? {
        return;
      }
      bench.Put(ToStm(TipControlMsg(Title(mode))));
      var _ := bench.TakeStm();
    }

    /** `set_bias(bias)`: sends the bias and drops three replies, the
      * acknowledgement and two more after a pause. */
    method SetBias(bias: Arg) returns (raised: Option<string>)
      modifies bench`events, bench`stmReplies
      ensures raised == SendError()
      ensures raised.None? ==> bench.events == old(bench.events) + [ToStm(SetBiasMsg(bias))]
      ensures raised.None? ==> bench.stmReplies == Skip(old(bench.stmReplies), 3)
      ensures raised.Some? ==> bench.events == old(bench.events) && bench.stmReplies == old(bench.stmReplies)
    {
      raised := SendError();
      if raised.Some? {
        return;
      }
      bench.Put(ToStm(SetBiasMsg(bias)));
      ghost var s := bench.stmReplies;
      var _ := bench.TakeStm();
      var _ := bench.TakeStm();
      var _ := bench.TakeStm();
      SkipStep(s, 0, Silence);
      SkipStep(s, 1, Silence);
      SkipStep(s, 2, Silence);
      SkipZero(s);
    }

    /** `get_position()`: asks for the X offset, then the Y offset, and
      * returns the two raw replies. */
    method GetPosition() returns (v: Devices.Vector2<string>, raised: Option<string>)
      modifies bench`events, bench`stmReplies
      ensures raised == SendError()
      ensures raised.None? ==> bench.events == old(bench.events) + [ToStm(OffsetQuery("X")), ToStm(OffsetQuery("Y"))]
      ensures raised.None? ==> v == Devices.Vector2(ReplyAt(old(bench.stmReplies), 0, Silence), ReplyAt(old(bench.stmReplies), 1, Silence))
      ensures raised.None? ==> bench.stmReplies == Skip(old(bench.stmReplies), 2)
      ensures raised.Some? ==> bench.events == old(bench.events) && bench.stmReplies == old(bench.stmReplies)
    {
      raised := SendError();
      v := Devices.Vector2(Silence, Silence);
      if raised.Some? {
        return;
      }
      ghost var s := bench.stmReplies;
      SkipZero(s);
      SkipStep(s, 0, Silence);
      SkipStep(s, 1, Silence);
      bench.Put(ToStm(OffsetQuery("X")));
      var x := bench.TakeStm();
      bench.Put(ToStm(OffsetQuery("Y")));
      var y := bench.TakeStm();
      v := Devices.Vector2(x, y);
    }
  }
}
