/** The pulse waveform synthesizer (`create_arb`, written out three times in
  * pyppspec/pump_probe.py, src/pump_probe.py and, as `create_pulse`, in
  * src/pumpprobe.py) and the peak normalisation the AWG drivers apply
  * before an upload. A waveform is a linear rising edge, an optional
  * plateau of ones, the mirrored falling edge and zero padding up to one
  * period of the arbitrary-waveform generator. */
module Waveform {
  import opened Numeric

  /** A pulse: amplitude (V), width and edge time (s), and the period of the
    * waveform it lives in (s). */
  datatype Pulse = Pulse(amp: real, width: real, edge: real, timeSpread: real)

  // Limits of the Keysight 33600A the code hard-codes.
  const MinRiseTime: real := 0.000000004
  const MinWidth: real := 0.000000004
  const SampleRate: real := 1000000000.0
  const MinArbLength: int := 32

  function Zeros(n: nat): (z: seq<real>)
    ensures |z| == n && forall i :: 0 <= i < n ==> z[i] == 0.0
  {
    seq(n, _ => 0.0)
  }

  function Ones(n: nat): (z: seq<real>)
    ensures |z| == n && forall i :: 0 <= i < n ==> z[i] == 1.0
  {
    seq(n, _ => 1.0)
  }

  function Reverse(s: seq<real>): (r: seq<real>)
    ensures |r| == |s| && forall i :: 0 <= i < |s| ==> r[i] == s[|s| - 1 - i]
  {
    seq(|s|, i requires 0 <= i < |s| => s[|s| - 1 - i])
  }

  /** Samples in each edge: never fewer than the minimum rise time allows. */
  function EdgeSamples(p: Pulse): (n: nat)
    ensures n >= 4
  {
    RoundOfInt(4);
    assert MinRiseTime * SampleRate == 4 as real;
    Max(Round(MinRiseTime * SampleRate), Round(p.edge * SampleRate))
  }

  /** Samples in the plateau, when there is one. */
  function PlateauSamples(p: Pulse): (n: nat)
    ensures n >= 4
  {
    RoundOfInt(4);
    assert MinWidth * SampleRate == 4 as real;
    Max(Round(MinWidth * SampleRate), Round(p.width * SampleRate))
  }

  function RisingEdge(p: Pulse): seq<real> {
    Linspace(0.0, 1.0, EdgeSamples(p))
  }

  function FallingEdge(p: Pulse): seq<real> {
    Reverse(RisingEdge(p))
  }

  function Plateau(p: Pulse): seq<real> {
    if p.width > MinWidth then Ones(PlateauSamples(p)) else []
  }

  /** The pulse before padding. */
  function PulseBody(p: Pulse): seq<real> {
    RisingEdge(p) + Plateau(p) + FallingEdge(p)
  }

  /** One period of the generator, in samples: what the padding aims for. */
  function PeriodSamples(p: Pulse): int {
    Max(MinArbLength, Round(p.timeSpread * SampleRate))
  }

  /** `create_arb` as written: pads only when the body is shorter than
    * `max(32, time_spread·1e9)`, and then by `max(32, round(time_spread·1e9)
    * − len)` zeros. */
  function CreateArbAsWritten(p: Pulse): seq<real> {
    var body := PulseBody(p);
    if (|body| as real) < MaxReal(MinArbLength as real, p.timeSpread * SampleRate) then
      body + Zeros(Max(MinArbLength, Round(p.timeSpread * SampleRate) - |body|))
    else
      body
  }

  /** As written, the waveform is the pulse followed by zeros, and never
    * shorter than 32 samples. */
  lemma CreateArbAsWrittenShape(p: Pulse)
    ensures |CreateArbAsWritten(p)| >= MinArbLength
    ensures |PulseBody(p)| <= |CreateArbAsWritten(p)| && CreateArbAsWritten(p)[..|PulseBody(p)|] == PulseBody(p)
    ensures forall i :: |PulseBody(p)| <= i < |CreateArbAsWritten(p)| ==> CreateArbAsWritten(p)[i] == 0.0
  {
  }

  /** `create_arb` with the padding it evidently intends: zeros up to one
    * period (at least 32 samples), never past it. */
  function CreateArb(p: Pulse): seq<real> {
    var body := PulseBody(p);
    if |body| < PeriodSamples(p) then body + Zeros(PeriodSamples(p) - |body|) else body
  }

  /** The waveform is the pulse followed by zeros up to one period, and
    * never shorter than the pulse. */
  lemma CreateArbShape(p: Pulse)
    ensures |CreateArb(p)| == Max(|PulseBody(p)|, PeriodSamples(p))
    ensures CreateArb(p)[..|PulseBody(p)|] == PulseBody(p)
    ensures forall i :: |PulseBody(p)| <= i < |CreateArb(p)| ==> CreateArb(p)[i] == 0.0
  {
  }

  // ----------------------------------------------------------- the shape

  /** The rising edge climbs linearly from 0 to 1 in `EdgeSamples(p)`
    * samples, and the falling edge is exactly its reverse. */
  lemma EdgeShape(p: Pulse)
    ensures |RisingEdge(p)| == EdgeSamples(p) == |FallingEdge(p)|
    ensures RisingEdge(p)[0] == 0.0 && RisingEdge(p)[EdgeSamples(p) - 1] == 1.0
    ensures forall i :: 0 <= i < EdgeSamples(p) ==>
      RisingEdge(p)[i] == (i as real) / ((EdgeSamples(p) - 1) as real)
    ensures forall i :: 0 <= i < EdgeSamples(p) ==>
      FallingEdge(p)[i] == RisingEdge(p)[EdgeSamples(p) - 1 - i]
  {
    var n := EdgeSamples(p);
    forall i | 0 <= i < n
      ensures RisingEdge(p)[i] == (i as real) / ((n - 1) as real)
    {
      assert RisingEdge(p)[i] == 0.0 + (i as real) * (1.0 - 0.0) / ((n - 1) as real);
    }
  }

  /** A plateau of ones sits between the edges exactly when the pulse is
    * wider than the minimum width; otherwise rise is followed by fall. */
  lemma PlateauShape(p: Pulse)
    ensures p.width > MinWidth ==>
      PulseBody(p) == RisingEdge(p) + Ones(PlateauSamples(p)) + FallingEdge(p)
    ensures p.width <= MinWidth ==> PulseBody(p) == RisingEdge(p) + FallingEdge(p)
  {
  }

  /** The unpadded pulse is a palindrome: the waveform is symmetric in time. */
  lemma {:induction false} BodySymmetric(p: Pulse, i: nat)
    requires i < |PulseBody(p)|
    ensures PulseBody(p)[i] == PulseBody(p)[|PulseBody(p)| - 1 - i]
  {
    var e := EdgeSamples(p);
    var m := |Plateau(p)|;
    var b := PulseBody(p);
    var j := |b| - 1 - i;
    assert |b| == 2 * e + m;
    if i < e {
      assert b[i] == RisingEdge(p)[i];
      assert b[j] == FallingEdge(p)[j - e - m];
    } else if i < e + m {
      assert b[i] == Plateau(p)[i - e] == 1.0;
      assert b[j] == Plateau(p)[j - e];
    } else {
      assert b[i] == FallingEdge(p)[i - e - m];
      assert b[j] == RisingEdge(p)[j];
    }
  }

  /** The amplitude plays no part in the shape; it is set separately on the
    * channel. */
  lemma ArbIgnoresAmplitude(p: Pulse, a: real)
    ensures CreateArb(p.(amp := a)) == CreateArb(p)
    ensures CreateArbAsWritten(p.(amp := a)) == CreateArbAsWritten(p)
  {
    BodyIgnoresAmplitude(p, a);
    var q := p.(amp := a);
    assert q.timeSpread == p.timeSpread;
  }

  lemma BodyIgnoresAmplitude(p: Pulse, a: real)
    ensures PulseBody(p.(amp := a)) == PulseBody(p)
    ensures PeriodSamples(p.(amp := a)) == PeriodSamples(p)
  {
    var q := p.(amp := a);
    assert EdgeSamples(q) == EdgeSamples(p);
    assert RisingEdge(q) == RisingEdge(p);
    assert FallingEdge(q) == FallingEdge(p);
    assert Plateau(q) == Plateau(p);
  }

  /** Every sample of the linear ramp lies between its end points. */
  lemma RampBounds(n: nat, i: nat)
    requires i < n
    ensures 0.0 <= Linspace(0.0, 1.0, n)[i] <= 1.0
  {
    LinspaceMonotone(0.0, 1.0, n, 0, i);
    LinspaceMonotone(0.0, 1.0, n, i, n - 1);
  }

  /** `w` is the pulse followed by nothing but zeros: the shape both
    * paddings produce. */
  predicate PaddedPulse(p: Pulse, w: seq<real>) {
    |PulseBody(p)| <= |w| && w[..|PulseBody(p)|] == PulseBody(p)
    && forall i :: |PulseBody(p)| <= i < |w| ==> w[i] == 0.0
  }

  /** Every sample of a padded pulse lies in [0, 1]. */
  lemma PaddedInUnitRange(p: Pulse, w: seq<real>, i: nat)
    requires PaddedPulse(p, w) && i < |w|
    ensures 0.0 <= w[i] <= 1.0
  {
    var e := EdgeSamples(p);
    var m := |Plateau(p)|;
    var b := PulseBody(p);
    if i < |b| {
      assert w[i] == w[..|b|][i] == b[i];
      if i < e {
        assert b[i] == RisingEdge(p)[i];
        RampBounds(e, i);
      } else if i < e + m {
        assert b[i] == Plateau(p)[i - e];
      } else {
        assert b[i] == FallingEdge(p)[i - e - m] == RisingEdge(p)[e - 1 - (i - e - m)];
        RampBounds(e, e - 1 - (i - e - m));
      }
    }
  }

  /** Every sample lies in [0, 1], for the waveform as written and for the
    * corrected one. */
  lemma ArbInUnitRange(p: Pulse, i: nat)
    ensures i < |CreateArbAsWritten(p)| ==> 0.0 <= CreateArbAsWritten(p)[i] <= 1.0
    ensures i < |CreateArb(p)| ==> 0.0 <= CreateArb(p)[i] <= 1.0
  {
    CreateArbShape(p);
    CreateArbAsWrittenShape(p);
    if i < |CreateArbAsWritten(p)| {
      PaddedInUnitRange(p, CreateArbAsWritten(p), i);
    }
    if i < |CreateArb(p)| {
      PaddedInUnitRange(p, CreateArb(p), i);
    }
  }

  // ------------------------------------------------------ normalisation

  /** `max(abs(arb))`: the largest magnitude (0 for an empty list). */
  function Peak(s: seq<real>): real
    decreases |s|
  {
    if s == [] then 0.0 else MaxReal(Abs(s[|s| - 1]), Peak(s[..|s| - 1]))
  }

  /** The peak bounds every magnitude and, unless the list is empty, is
    * one of them. */
  lemma {:induction false} PeakSpec(s: seq<real>)
    ensures Peak(s) >= 0.0
    ensures forall i :: 0 <= i < |s| ==> Abs(s[i]) <= Peak(s)
    ensures s != [] ==> exists i :: 0 <= i < |s| && Abs(s[i]) == Peak(s)
    decreases |s|
  {
    if s != [] {
      var init := s[..|s| - 1];
      PeakSpec(init);
      assert forall i :: 0 <= i < |s| - 1 ==> init[i] == s[i];
      if Abs(s[|s| - 1]) < Peak(init) {
        var k :| 0 <= k < |init| && Abs(init[k]) == Peak(init);
        assert Abs(s[k]) == Peak(s);
      }
    }
  }

  /** The peak is the one magnitude that bounds all samples and is reached. */
  lemma PeakIs(s: seq<real>, m: real, k: nat)
    requires forall i :: 0 <= i < |s| ==> Abs(s[i]) <= m
    requires k < |s| && Abs(s[k]) == m
    ensures Peak(s) == m
  {
    PeakSpec(s);
  }

  /** The upload normalisation `arb / max(abs(arb))`. */
  function Normalize(s: seq<real>): (t: seq<real>)
    requires Peak(s) > 0.0
    ensures |t| == |s|
  {
    seq(|s|, i requires 0 <= i < |s| => s[i] / Peak(s))
  }

  /** Dividing by a bound on the magnitude lands in [-1, 1]; dividing by the
    * magnitude itself gives magnitude 1. */
  lemma DivByBound(x: real, m: real)
    requires m > 0.0 && Abs(x) <= m
    ensures Abs(x / m) <= 1.0
    ensures Abs(x) == m ==> Abs(x / m) == 1.0
  {
    var q := x / m;
    assert q * m == x;
    if q > 1.0 {
      assert (q - 1.0) * m > 0.0;
    }
    if q < -1.0 {
      assert (-1.0 - q) * m > 0.0;
    }
  }

  /** After normalisation every value lies in [-1, 1] and the peak magnitude
    * is exactly 1. */
  lemma NormalizedUnit(s: seq<real>)
    requires Peak(s) > 0.0
    ensures forall i :: 0 <= i < |s| ==> -1.0 <= Normalize(s)[i] <= 1.0
    ensures Peak(Normalize(s)) == 1.0
  {
    var m := Peak(s);
    var t := Normalize(s);
    PeakSpec(s);
    forall i | 0 <= i < |s|
      ensures Abs(t[i]) <= 1.0
    {
      DivByBound(s[i], m);
    }
    var k :| 0 <= k < |s| && Abs(s[k]) == m;
    DivByBound(s[k], m);
    PeakIs(t, 1.0, k);
  }

  /** A padded pulse has peak 1, so normalisation leaves it unchanged. */
  lemma PaddedIsNormalized(p: Pulse, w: seq<real>)
    requires PaddedPulse(p, w)
    ensures Peak(w) == 1.0
    ensures Normalize(w) == w
  {
    var e := EdgeSamples(p);
    forall i | 0 <= i < |w|
      ensures Abs(w[i]) <= 1.0
    {
      PaddedInUnitRange(p, w, i);
    }
    EdgeShape(p);
    assert w[e - 1] == w[..|PulseBody(p)|][e - 1] == PulseBody(p)[e - 1] == RisingEdge(p)[e - 1];
    PeakIs(w, 1.0, e - 1);
  }

  /** A synthesized waveform, as written or corrected, already has peak 1,
    * so the driver's normalisation leaves it unchanged. */
  lemma ArbIsNormalized(p: Pulse)
    ensures Peak(CreateArbAsWritten(p)) == 1.0
    ensures Normalize(CreateArbAsWritten(p)) == CreateArbAsWritten(p)
    ensures Peak(CreateArb(p)) == 1.0
    ensures Normalize(CreateArb(p)) == CreateArb(p)
  {
    CreateArbShape(p);
    CreateArbAsWrittenShape(p);
    PaddedIsNormalized(p, CreateArbAsWritten(p));
    PaddedIsNormalized(p, CreateArb(p));
  }

  // ---------------------------------------------- the padding discrepancy

  /** The two paddings agree exactly when the original either does not pad
    * or pads by at least 32; in every other case the original produces
    * `len + 32` samples, more than the corrected `max(len, period)`. */
  lemma {:induction false} AsWrittenOverPads(p: Pulse)
    ensures var len := |PulseBody(p)|;
      var pads := (len as real) < MaxReal(MinArbLength as real, p.timeSpread * SampleRate);
      if pads && Round(p.timeSpread * SampleRate) - len < MinArbLength then
        |CreateArbAsWritten(p)| == len + MinArbLength > |CreateArb(p)|
      else
        CreateArbAsWritten(p) == CreateArb(p)
  {
    var b := PulseBody(p);
    var len := |b|;
    var r := p.timeSpread * SampleRate;
    var w := CreateArbAsWritten(p);
    var v := CreateArb(p);
    CreateArbShape(p);
    assert len >= 8 by { assert len >= 2 * EdgeSamples(p); }
    if (len as real) < MaxReal(MinArbLength as real, r) {
      if Round(r) - len >= MinArbLength {
        assert |w| == Round(r) == |v|;
        assert w == v by {
          assert w[..len] == b == v[..len];
          assert forall i :: len <= i < |w| ==> w[i] == 0.0 == v[i];
        }
      }
    } else {
      RoundBelow(r, len);
      assert |w| == len == |v|;
      assert w == v by {
        assert w[..len] == b == v[..len];
      }
    }
  }

  /** The pulse of the finding: a 40 ns edge, a 10 ns plateau and a 100 ns
    * period. The body is 90 samples; the original pads 32 zeros instead of
    * 10 and uploads 122 samples for a 100-sample period. */
  lemma OverPaddedPulse()
    ensures var p := Pulse(1.0, 0.00000001, 0.00000004, 0.0000001);
      |PulseBody(p)| == 90 && |CreateArbAsWritten(p)| == 122 && |CreateArb(p)| == 100
  {
    var p := Pulse(1.0, 0.00000001, 0.00000004, 0.0000001);
    RoundOfInt(40);
    RoundOfInt(10);
    RoundOfInt(100);
    assert p.edge * SampleRate == 40 as real;
    assert p.width * SampleRate == 10 as real;
    assert p.timeSpread * SampleRate == 100 as real;
    assert EdgeSamples(p) == 40;
    assert PlateauSamples(p) == 10;
    assert |PulseBody(p)| == 90;
  }
}
