# pyppspec pump-probe sequencer, in Dafny

pyppspec drives a pump-probe measurement on a scanning tunnelling microscope
(STM). A Keysight arbitrary-waveform generator (AWG) plays two pulses, the
pump and the probe. A lock-in amplifier reads the tunnelling current's
response. An RHK R9 controller holds the tip while the phase between the two
pulses is swept. This project models the sequencer and the layers under it:

- the pulse synthesizer (`create_arb` / `create_pulse`);
- the three experiment runners: the packaged one in `pyppspec/pump_probe.py`,
  the STM one in `src/pump_probe.py` and the Qt one in `src/pumpprobe.py`;
- the `Result` wrapper and the instrument drivers of
  `ppspectroscopy/devices.py` and `src/device.py`;
- the queue worker of `src/app.py`;
- the scripted RHK procedures of `src/RHK.py`.

The instruments are modelled as follows:

- **The bench** (`Transport.Bench`) is one ordered log of everything sent.
  Each entry is an SCPI command to the AWG, a text to the lock-in or a message
  to the STM. The bench also holds one reply script per instrument. A socket
  whose script runs out returns the empty text. A VISA query whose script
  runs out times out.
- **Exceptions** are an `Option<string>` holding the exception's repr, and
  they propagate the way Python's do.
- **The console and `logging`** are a `Results.Log` of lines.
- **The packaged runner's ghost parts.** `PumpProbe.PumpProbe` holds a
  reader `parse` of the controller's replies and a pulse builder `arb`.
  `Wired` makes them read as `float()` does (`Agrees`) and build as
  `create_arb` does (`BuildsArbs`), and the constructor sets them so. The
  runner's loops and traces are stated through them.
- **The Qt signals** are one ordered trace (`App.Signal`).
- **The RHK socket** (`Rhk.Stm`) is a `sent` log plus a `replies` script.
  Its `time.sleep` calls are appended to `sleeps`. The "Cancel" click, set
  from another thread, is a count: `clickAfter` is how many more reads of
  `Cancel` happen before the click lands.

The files:

| file | module | models |
|---|---|---|
| results.dfy | Results | `Result`, `Option` and the console log |
| text.dfy | Text | `str.title`, `split()[0]`, `float()` of decimal text, `in` on strings, newline-joined text, the `repr` of bytes |
| numeric.dfy | Numeric | Python's `round` (halves to even), `max`, `abs`, `np.linspace` |
| transport.dfy | Transport | the bench, the SCPI and R9 message shapes, reply scripts |
| waveform.dfy | Waveform | `create_arb` and the peak normalisation of `send_arb_ch` |
| devices.dfy | Devices | `LockIn`, `AWG` (both driver copies) and `RHK_R9` of ppspectroscopy/devices.py |
| appdevice.dfy | AppDevice | `STM.connect` and `RHK_R9` of src/device.py |
| pumpprobe.dfy | PumpProbe | pyppspec/pump_probe.py |
| phasesweep.dfy | PhaseSweep | the phase-sweep loop shared by src/pump_probe.py and src/pumpprobe.py |
| stm_pumpprobe.dfy | StmPumpProbe | src/pump_probe.py |
| qt_pumpprobe.dfy | QtPumpProbe | src/pumpprobe.py |
| app.dfy | App | `PumpProbeWorker` of src/app.py |
| rhk.dfy | Rhk | the `RHK` class of src/RHK.py |

Some behaviour is modelled as written, not as it might have been meant:

- The bias read-backs of the packaged runner stop at the first float, not
  at the target value.
- The worker never takes an experiment off the queue.
- The runners upload the waveform `create_arb` builds as written, with
  its over-padding (see "## Findings"). The corrected padding is defined
  and proved beside it.
- `repeat_arb` is always false, so every pass of the worker reaches the
  upload of src/pumpprobe.py. As written, that upload raises
  `create_pulse`'s TypeError after both resets (see "## Findings"). The
  worker's loop is modelled over the intended run, and
  `App.AsWrittenStopsAfterOnePass` states what the worker does as written.
- A repeated run of src/pumpprobe.py reads `self.lockIn`, which the runner
  never sets, so as written it raises before its first reading (see
  "## Findings"); `QtPumpProbe.Runner.Run` reads the runner's lock-in.
- `STM.connect` of src/device.py reports an error even when it succeeds.
- src/pump_probe.py reads `config.default_bias`, which its `PumpProbeConfig`
  does not declare. The model's `Config.defaultBias` is an `Option`. When it
  is `None`, the runner raises the AttributeError right after closing
  channel 1, so the tip is never released (see "## Findings").

## Model

| member | source | states |
|---|---|---|
| Results.Result.Expected | ppspectroscopy/devices.py:27-33 | returns the very same result; the log gains the context line exactly when `err` is set, and nothing otherwise (src/device.py:26-29 is the same) |
| Results.Result.Report | ppspectroscopy/devices.py:24-25 | the output list gains exactly `msg` at its end and nothing else changes |
| Text.TitleIdempotent | ppspectroscopy/devices.py:378 | title-casing a mode twice is the same as once, so an already title-cased mode is sent unchanged |
| Text.TrimStartSpec | src/pump_probe.py:193 | the leading white space removed is white space, and what is left starts with a non-space |
| Text.TrimEndSpec | src/pump_probe.py:193 | the trailing white space removed is white space, and what is left ends with a non-space |
| Text.WordSpec | src/pump_probe.py:193 | a word is the longest prefix without white space: a prefix, space-free, followed by white space or the end |
| Text.FirstTokenSpec | pyppspec/pump_probe.py:240 | `split()[0]` fails exactly on an all-blank text; otherwise it is the first non-empty space-free run after the leading blanks, ending at white space or the end |
| Text.FirstTokenOf | src/pumpprobe.py:157 | a space-free word followed by white space (or nothing) splits to that word |
| Text.NatTextValue | src/pump_probe.py:44 | the decimal text of a count reads back as that count |
| Text.ParseNatText | src/pump_probe.py:194 | `float()` of a count's decimal text is that count |
| Text.ContainsIffOccurs | src/app.py:96-98 | `pat in s` holds exactly when `pat` occurs at some position of `s` |
| Text.LinesUnlines | src/pump_probe.py:39-45 | newline-terminated lines without line breaks split back into the same lines |
| Text.BytesReprOneLine | src/RHK.py:37 | the repr of a reply's bytes, as a float error quotes it, starts with `b` and has no line break |
| Text.StrReprPlain | pyppspec/pump_probe.py:241 | `repr` of a token of printable ASCII without quotes or backslashes, as `float()`'s error quotes it, is the token in single quotes |
| Numeric.Round | pyppspec/pump_probe.py:132 | `round` is within one half of its argument, and a tie goes to the even neighbour |
| Numeric.RoundUnique | pyppspec/pump_probe.py:132 | any integer within one half that is even on a tie is the rounded value |
| Numeric.RoundOfInt | pyppspec/pump_probe.py:132 | rounding an integral value gives that integer |
| Numeric.RoundBelow | pyppspec/pump_probe.py:139-140 | rounding never passes an integer bound above the argument |
| Numeric.Max | pyppspec/pump_probe.py:132 | `max` is at least both arguments and equal to one of them |
| Numeric.Abs | src/RHK.py:52 | `np.abs` is non-negative and equal to the argument or its negation |
| Numeric.Linspace | src/pump_probe.py:159 | `n` values; the first is `a` and, for two or more, the last is `b` |
| Numeric.LinspaceStep | src/pump_probe.py:159 | neighbouring values differ by `(b - a)/(n - 1)` |
| Numeric.LinspaceMonotone | pyppspec/pump_probe.py:187 | for `a <= b` the values never decrease |
| Numeric.LinspaceSymmetric | src/pump_probe.py:159 | `linspace(-r, r, n)` is symmetric about 0: value `i` is minus value `n-1-i` |
| Waveform.EdgeSamples | pyppspec/pump_probe.py:132 | an edge has at least 4 samples |
| Waveform.PlateauSamples | pyppspec/pump_probe.py:135 | a plateau has at least 4 samples |
| Waveform.Reverse | pyppspec/pump_probe.py:133 | the reversal has the same length, with sample `i` taken from position `len-1-i` |
| Waveform.EdgeShape | pyppspec/pump_probe.py:132-133 | both edges have `max(4, round(edge·1e9))` samples; the rising edge ramps linearly from 0 to 1 and the falling edge is exactly its reverse |
| Waveform.PlateauShape | pyppspec/pump_probe.py:134-137 | a plateau of ones sits between the edges exactly when the width is above 4 ns; otherwise the pulse is rise then fall |
| Waveform.BodySymmetric | pyppspec/pump_probe.py:132-137 | the pulse reads the same backwards |
| Waveform.CreateArbAsWrittenShape | pyppspec/pump_probe.py:139-141 | the padding as written: the pulse, then only zeros, at least 32 samples in all |
| Waveform.CreateArbShape | src/pump_probe.py:126-130 | the corrected padding: the pulse, then zeros up to one period of `max(32, round(time_spread·1e9))` samples, never cut short |
| Waveform.AsWrittenOverPads | pyppspec/pump_probe.py:139-141 | the written padding agrees with the corrected one except when it pads by fewer than 32 zeros; then it yields `len + 32` samples, more than one period |
| Waveform.OverPaddedPulse | src/pumpprobe.py:102-104 | a 40 ns edge, 10 ns width and 100 ns period give a 90-sample pulse; as written it is padded to 122 samples instead of 100 |
| Waveform.ArbIgnoresAmplitude | pyppspec/pump_probe.py:123-125 | the waveform, as written and corrected, does not depend on the pulse's amplitude |
| Waveform.PaddedInUnitRange | pyppspec/pump_probe.py:132-141 | every sample of a pulse followed by nothing but zeros lies in [0, 1] |
| Waveform.ArbInUnitRange | pyppspec/pump_probe.py:132-141 | every sample of the waveform lies in [0, 1], both as `create_arb` pads it and with the corrected padding |
| Waveform.PeakSpec | ppspectroscopy/devices.py:200-201 | `max(abs(arb))` is non-negative, bounds every sample's magnitude and is attained by one |
| Waveform.PeakIs | ppspectroscopy/devices.py:200-201 | an attained bound on the magnitudes is the peak |
| Waveform.Normalize | ppspectroscopy/devices.py:202 | the normalised waveform has the same length |
| Waveform.NormalizedUnit | src/device.py:154-158 | after dividing by the peak, every value lies in [-1, 1] and the peak is 1 |
| Waveform.PaddedIsNormalized | ppspectroscopy/devices.py:200-204 | a pulse followed by nothing but zeros has peak 1, so normalising it changes nothing |
| Waveform.ArbIsNormalized | ppspectroscopy/devices.py:200-204 | a synthesized waveform already has peak 1, so normalising it changes nothing; this holds both as `create_arb` pads it and with the corrected padding |
| Devices.LockIn.Connect | ppspectroscopy/devices.py:47-55 | the socket is kept exactly when the connection succeeds; the result is `Connected` without error, or the socket error's text with `err` set |
| Devices.LockIn.Send | ppspectroscopy/devices.py:57-64 | without a socket: returns None and sends nothing; with one: sends the text and reports it |
| Devices.LockIn.Recv | ppspectroscopy/devices.py:66-73 | without a socket: None and nothing consumed; with one: the next scripted reply, consumed |
| Devices.LockIn.Reset | ppspectroscopy/devices.py:75-78 | `*CLS` sent on a socket; without one, the AttributeError of `None.send` |
| Devices.LockIn.Default | ppspectroscopy/devices.py:85-104 | the ten front-end commands in order, or nothing without a socket |
| Devices.AwgsAppend | ppspectroscopy/devices.py:122-129 | writing two command lists one after the other logs their concatenation |
| Devices.Awg.Connect | src/device.py:80-86 | the handle is set when opening the resource succeeds; the result is `[id] Connected`, or the ValueError's text with `err` set |
| Devices.Awg.Write | ppspectroscopy/devices.py:122-129 | without a handle: None and nothing sent; with one: the command sent and reported |
| Devices.Awg.Query | ppspectroscopy/devices.py:131-138 | without a handle: None and nothing consumed; with one: the command sent and the next reply (a timeout when none is left) consumed |
| Devices.Awg.Reset | ppspectroscopy/devices.py:140-143 | `*RST` written straight to the handle; without one, the AttributeError of `None.write` |
| Devices.Awg.Wait | ppspectroscopy/devices.py:145-146 | `*WAI`, through `write` |
| Devices.Awg.OpenChannel | src/device.py:124-125 | `OUTPut{ch} ON`, reported without error; None without a handle |
| Devices.Awg.CloseChannel | src/device.py:127-128 | `OUTPut{ch} OFF`, reported without error; None without a handle |
| Devices.Awg.SetAmp | ppspectroscopy/devices.py:164-178 | package driver: `VOLT amp`, `*WAI`, then the offset command with the int `0`, `*WAI`; app driver (src/device.py:135-142): `VOLT amp`, then the offset command with its int `offset` |
| Devices.OffsetText | ppspectroscopy/devices.py:176 | the offset line reads `SOURce{ch}VOLT:OFFSET ` and the int in decimal, so the zero offset goes out as `0`, not as a float's text (src/device.py:141 formats the int default) |
| Devices.Awg.SetPhase | ppspectroscopy/devices.py:180-188 | the phase write, then `*WAI` |
| Devices.Awg.SendArbCh | ppspectroscopy/devices.py:190-249 | the waveform divided by its peak, uploaded by the fixed command sequence with its amplitude; the upload is clean exactly when the error answer starts `+0,"No error"`, and one console line says which; no handle raises before anything is sent |
| Devices.CleanAnswers | ppspectroscopy/devices.py:244-249 | the exact no-error answer (whatever follows its 13 characters) is clean; a timed-out query never is |
| Devices.UploadedShape | ppspectroscopy/devices.py:200-204 | a pulse padded as `create_arb` pads it has a positive peak, goes up unchanged, and after normalisation every uploaded value is in [-1, 1] |
| Devices.Awg.ModulateAmplitude | ppspectroscopy/devices.py:251-293 | the square-wave amplitude-modulation commands at `freq`, or the AttributeError without a handle |
| Devices.Awg.SyncChannels | ppspectroscopy/devices.py:295-308 | `FUNC:ARB:SYNC` then the phase sync, each with `*WAI`, only for the flags set; nothing when both are false |
| Devices.Awg.CombineChannels | ppspectroscopy/devices.py:310-319 | the feed of channel `feed` into channel `out`, or the AttributeError without a handle |
| Devices.Acknowledgement | ppspectroscopy/devices.py:381-387 | the reply is the message, and it is an error exactly when it is not `Done` |
| Devices.RhkR9.SetTipControl | ppspectroscopy/devices.py:375-387 | sends the title-cased mode, consumes one reply and reports success exactly when it is `Done`; the log gains the bytes repr of any other reply, or `STM tip control set to {mode}` |
| Devices.RhkR9.SetBias | ppspectroscopy/devices.py:389-401 | sends the bias, consumes one reply and reports success exactly when it is `Done`; the log gains the bytes repr of any other reply, or `STM bias set to {bias}.` |
| Devices.RhkR9.GetBias | ppspectroscopy/devices.py:403-416 | asks once, or twice when the first answer is not a number; returns the first number read, and raises the ValueError of the second `float` when neither answer is a number |
| Devices.BiasPolls | ppspectroscopy/devices.py:403-416 | `get_bias` asks once exactly when the first answer parses, and otherwise twice |
| Devices.ReadBiasAnswers | ppspectroscopy/devices.py:403-416 | the bias is the first answer when it parses, else the second's parse; `get_bias` raises exactly when neither parses, with the ValueError that quotes the second answer, and otherwise returns a number |
| AppDevice.ConnectReport | src/device.py:289-298 | `STM.connect` reports an error on both paths: the refusal's text, or `Connected` |
| AppDevice.RhkR9.Connect | src/device.py:289-298 | the socket object is always kept; the link is up exactly when there is no refusal |
| AppDevice.RhkR9.SetTipControl | src/device.py:335-342 | sends the title-cased mode and drops one reply; on an unconnected socket it raises and nothing is sent |
| AppDevice.RhkR9.SetBias | src/device.py:344-357 | sends the bias and drops three replies; on an unconnected socket it raises and nothing is sent |
| AppDevice.RhkR9.GetPosition | src/device.py:359-368 | asks for the X offset, then the Y offset, and returns the two raw replies as `Vector2(x, y)` |
| PumpProbe.AmplitudeTitles | pyppspec/pump_probe.py:81-88 | an amplitude sweep is titled `Pump amplitude (V)` or `Probe amplitude (V)` by its channel |
| PumpProbe.ChannelTitles | pyppspec/pump_probe.py:85 | the title case of the channel names `PUMP` and `PROBE` |
| PumpProbe.CsvHead | pyppspec/pump_probe.py:49-68 | the header has 17 rows |
| PumpProbe.SectionRows | pyppspec/pump_probe.py:49-68 | the section headers sit at rows 0, 2, 5, 9 and 13 and nowhere else |
| PumpProbe.CsvHeadReadsBack | pyppspec/pump_probe.py:49-68 | every setting (position, both pulses, samples, fixed delay) is read back from its own section of the header |
| PumpProbe.PositionReadsBack | pyppspec/pump_probe.py:53-55 | `x` and `y` read back from `[Position]` |
| PumpProbe.PumpReadsBack | pyppspec/pump_probe.py:56-59 | the pump's `amp`, `width` and `edge` read back from `[Pump]` |
| PumpProbe.ProbeReadsBack | pyppspec/pump_probe.py:60-63 | the probe's settings read back from `[Probe]`, not from the pump's rows with the same keys |
| PumpProbe.SettingsReadsBack | pyppspec/pump_probe.py:64-67 | `samples` and `fixed time delay` read back from `[Settings]` |
| PumpProbe.InterpretNumber | pyppspec/pump_probe.py:238-241 | a received reply that starts with a number, followed by white space or nothing, reads as that number |
| PumpProbe.SeparatorReplyIsBlank | pyppspec/pump_probe.py:239-240 | a reply of `\x1c`, white space to `str.split()`, raises the IndexError of `split()[0]` |
| PumpProbe.InterpretEdgeCases | pyppspec/pump_probe.py:238-243 | a blank reply raises the IndexError of `split()[0]`; a failed receive is recorded as it is |
| PumpProbe.ReadsSnoc | pyppspec/pump_probe.py:236-244 | one more reading is the next reply, parsed |
| PumpProbe.ReadsJoin | pyppspec/pump_probe.py:225-244 | the readings of one pass followed by those of the next are the replies in order |
| PumpProbe.Scale | pyppspec/pump_probe.py:228 | each `x` is the sweep value times the conversion factor |
| PumpProbe.ScaleSnoc | pyppspec/pump_probe.py:228-229 | one more sweep value appends its scaled value |
| PumpProbe.SweepQuiet | pyppspec/pump_probe.py:225-236 | a pass of the sweep sends nothing to the STM |
| PumpProbe.PartialQuiet | pyppspec/pump_probe.py:225-237 | a pass cut short by an unreadable reply sends nothing to the STM either |
| PumpProbe.TipModes | pyppspec/pump_probe.py:193 | `freeze` and `unlimit` are sent as `Freeze` and `Unlimit` |
| PumpProbe.BiasKeepsTip | pyppspec/pump_probe.py:201-212 | the bias writes and reads never release the tip |
| PumpProbe.PumpProbe.constructor | pyppspec/pump_probe.py:108-113 | a fresh lock-in and AWG from the configuration, neither connected, on the STM's bench |
| PumpProbe.PumpProbe.PrepQuiet | pyppspec/pump_probe.py:159-185 | nothing before the freeze releases the tip |
| PumpProbe.PumpProbe.Upload | pyppspec/pump_probe.py:159-178 | resets, the lock-in defaults, the pump to channel 2 and the probe to channel 1, modulation of channel 1, channel 2 fed into 1, then sync; the log announces each reset before it is tried and the upload, then holds each pulse's error-query note; a missing handle raises after the reset before it |
| PumpProbe.PumpProbe.SendNewWaveform | pyppspec/pump_probe.py:167-178 | the announcement, then both pulses exactly as `create_arb` builds them (normalising them changes nothing), two error queries consumed |
| PumpProbe.PumpProbe.PulsesNormalized | pyppspec/pump_probe.py:167-172 | both pulses `create_arb` builds have a positive peak, and `send_arb_ch` uploads them unchanged |
| PumpProbe.PumpProbe.ResetBoth | pyppspec/pump_probe.py:160-165 | `*RST` to the AWG, `*CLS` to the lock-in, then the lock-in defaults; a missing handle raises |
| PumpProbe.PumpProbe.SendPulses | pyppspec/pump_probe.py:170-178 | each pulse normalised and uploaded with its error query, then modulation, combine and sync |
| PumpProbe.PumpProbe.Prepare | pyppspec/pump_probe.py:159-185 | the upload, or only the two amplitudes (pump then probe), then the probe phase when a fixed delay is set |
| PumpProbe.PumpProbe.SetBiasOnce | pyppspec/pump_probe.py:204 | one `set_bias` request and one reply consumed; success exactly when the reply is `Done` |
| PumpProbe.PumpProbe.SetBiasUntilDone | pyppspec/pump_probe.py:204-206 | the same bias is sent as many times as `SetsUntilDone` counts on the controller's replies: no call but the last is acknowledged; hung exactly when no reply is `Done`; the log holds each call's line and reply |
| PumpProbe.SetsUntilDone | pyppspec/pump_probe.py:204-206 | the `set_bias` loop makes at least one call, and a second only while replies remain |
| PumpProbe.FirstDone | pyppspec/pump_probe.py:204-206 | the loop stops at the first `Done` when there is one, with none before it, and otherwise uses up every reply |
| PumpProbe.SetsStop | pyppspec/pump_probe.py:204-206 | where the loop stops, given what it saw there: the count is `SetsUntilDone`, and it hung exactly when no reply is `Done` |
| PumpProbe.UntilFirstDone | pyppspec/pump_probe.py:204-206 | a `Done` at reply `k` with none before it: exactly `k + 1` calls |
| PumpProbe.UntilNoDone | pyppspec/pump_probe.py:204-206 | no `Done` among the `k + 1` replies that use up the script: exactly `k + 1` calls, and no `Done` anywhere |
| PumpProbe.PumpProbe.SetBiasRetry | pyppspec/pump_probe.py:205-206 | one more call of the loop moves it on by one reply, one `set_bias` and that call's log lines; the call fails exactly when its reply is not `Done` |
| PumpProbe.PumpProbe.PollOnce | pyppspec/pump_probe.py:210 | one `get_bias`: one request when the first reply reads as a number, else two, and the reading `get_bias` returns (through a reader `parse` that agrees with `float()`) |
| PumpProbe.ReadsLikeFloat | ppspectroscopy/devices.py:403-416 | a reader that agrees with `float()` makes `get_bias` ask as often and return the same reading |
| PumpProbe.PumpProbe.PollBias | pyppspec/pump_probe.py:210-212 | ends as `ReadBackOf` says: `get_bias` is repeated until it yields a number, not until it equals the target; with no target it stops at once; hung when the replies run out first |
| PumpProbe.ReadBackEnds | pyppspec/pump_probe.py:210-212 | a read-back makes at least the requests of its first `get_bias`; it hangs only while it wants a number and every reply is used up; otherwise it ends on a number, unless the target is None |
| PumpProbe.PumpProbe.PollAgain | pyppspec/pump_probe.py:211-212 | one more `get_bias` of the loop keeps the state where `ReadBackOf` says it is, and consumes at least one reply |
| PumpProbe.PumpProbe.ConfirmBias | pyppspec/pump_probe.py:204-212 | the set-until-`Done` requests, then the read-back requests, with the counts and the reading `ConfirmOf` fixes from the controller's replies; unless hung, the last set was acknowledged |
| PumpProbe.ConfirmEnds | pyppspec/pump_probe.py:204-212 | a set-then-read-back step makes at least one `set_bias`; unless it hangs it reads back at least once and ends on a number, or the target is None |
| PumpProbe.TriesValid | pyppspec/pump_probe.py:201-267 | on replies where no bias loop hangs, `run` reads `prev_bias` once or twice and goes round each set and read-back loop at least once |
| PumpProbe.StepsOf | pyppspec/pump_probe.py:201-267 | the lowering step taken after the reads behind `prev_bias`, and the restoring step on the replies it left, are `LowerStep` and `RestoreStep` |
| PumpProbe.PumpProbe.Apply | pyppspec/pump_probe.py:232 | the procedure's AWG call (`set_phase` or `set_amp`) for one value |
| PumpProbe.PumpProbe.Sample | pyppspec/pump_probe.py:232-244 | the AWG setting, the `X.` request, and the next reply parsed |
| PumpProbe.PumpProbe.SweepOnce | pyppspec/pump_probe.py:226-244 | one pass: `x` is the scaled sweep values and there is one reading per value, each the next reply; or the pass stops at the first unreadable reply |
| PumpProbe.PumpProbe.Sweep | pyppspec/pump_probe.py:225-250 | `spectra` passes: `x` is the scaled values repeated, `data` has as many entries as `x`, each reading a reply in order, and nothing goes to the STM; it raises exactly with the exception of the first of the `spectra · len(values)` sample replies that does not read (`FirstUnreadable`) |
| PumpProbe.FirstUnreadableSpec | pyppspec/pump_probe.py:236-243 | the first failing `float(y.split()[0])` among `n` replies: none exactly when every reply reads, otherwise the exception of a reply all of whose predecessors read |
| PumpProbe.ReadsUntilUnreadable | pyppspec/pump_probe.py:225-243 | a sweep that read `data` in order and then met an unreadable reply stopped at the first one, and one that read `n` replies met none among them |
| PumpProbe.PumpProbe.FreezeTip | pyppspec/pump_probe.py:193 | `Tip Control, Freeze` sent; the tip is frozen exactly when the reply is `Done` |
| PumpProbe.PumpProbe.LowerBias | pyppspec/pump_probe.py:201-212 | `prev_bias` as `get_bias` reads it, then 0.01 set until acknowledged and read back, the counts fixed by the controller's replies through `ConfirmOf`; the tip is not released |
| PumpProbe.PumpProbe.SweepPhase | pyppspec/pump_probe.py:216-253 | channel 1 opened, the buffering exchange, the passes, channel 1 closed; `x` and `data` the same length; nothing goes to the STM; it raises exactly with `SweepError`: the missing AWG's AttributeError at `report`, else the missing lock-in's at `expected`, else the first unreadable sample reply after the buffering one |
| PumpProbe.PumpProbe.SwitchOn | pyppspec/pump_probe.py:216-223 | `OUTPut1 ON` and the buffering request; it raises `None`'s AttributeError at `report` without an AWG and at `expected` without a lock-in, and only then; the log holds `Sent 'OUTPut1 ON'`, the missed-buffering note when the reply is an error, and `Beginning pump-probe procedure` |
| PumpProbe.PumpProbe.OpenOutput | pyppspec/pump_probe.py:216 | with an AWG, `OUTPut1 ON` is sent and its `Sent 'OUTPut1 ON'` report logged; without one it raises the AttributeError of `None.report` and changes neither the events nor the log |
| PumpProbe.PumpProbe.AwaitBuffering | pyppspec/pump_probe.py:220-223 | with a lock-in it sends `X.`, consumes one reply and logs the missed-buffering note exactly when that reply is an error, then `Beginning pump-probe procedure`; without one it raises the AttributeError of `None.expected` and changes neither the events nor the log |
| PumpProbe.PumpProbe.RestoreBias | pyppspec/pump_probe.py:259-272 | `prev_bias` set until acknowledged and read back, the counts fixed by the replies through `ConfirmOf`, and only then `Tip Control, Unlimit`; a hung loop leaves the tip frozen |
| PumpProbe.PumpProbe.ReleaseTip | pyppspec/pump_probe.py:272 | `Tip Control, Unlimit` sent, one reply consumed, and the reply's note logged |
| PumpProbe.PumpProbe.Measure | pyppspec/pump_probe.py:197-275 | a finished measurement sends bias lowering, sweep, close, bias restore, unlimit in that order, with the counts `BiasTries` fixes from the controller's replies; it hangs only as `BiasHangs` says; it raises exactly when the lowering goes through and the sweep phase raises, with `SweepError`'s exception; any other ending leaves the tip unreleased |
| PumpProbe.PumpProbe.SweepAndRestore | pyppspec/pump_probe.py:216-275 | the sweep, then, unless it raised, the restore with the counts `ConfirmOf` fixes; it raises exactly when `SweepError` gives an exception, and with that exception; hung exactly when the restore step hangs |
| PumpProbe.PumpProbe.FreezeAndMeasure | pyppspec/pump_probe.py:193-195 | a failed freeze returns `([], [])` before any bias command or channel open |
| PumpProbe.PumpProbe.RunExperiment | pyppspec/pump_probe.py:153-275 | the set-up (or its exception), then the frozen part as `FrozenOutcome` says: a refused freeze ends it with nothing measured; a finished run read the bias with the counts `BiasTries` fixes; a hang is `BiasHangs`; an exception after the freeze is `SweepError`'s, raised exactly when the lowering goes through; the tip is released only on a finished run |
| PumpProbe.PumpProbe.FrozenOutcomeDecided | pyppspec/pump_probe.py:193-275 | how a run past its set-up ends is fixed by the inputs: it returns exactly when the freeze is refused or no bias loop hangs and the sweep phase raises nothing, raises exactly when the freeze and lowering go through and the sweep phase raises, and hangs otherwise |
| PumpProbe.PumpProbe.FrozenRunReturns | pyppspec/pump_probe.py:193-275 | with both instruments connected, every sample reply readable and no bias loop short of replies, the run returns `(x, data)` |
| PumpProbe.PyIndex | pyppspec/pump_probe.py:153 | a list index picks an item exactly when it lies in `-n .. n - 1`; the item picked is the index itself or, for a negative index, `n` plus it |
| PumpProbe.PumpProbe.Run | pyppspec/pump_probe.py:145-275 | an index outside `-len .. len - 1` raises IndexError with nothing sent, and a negative one picks the experiment counted from the end; otherwise the set-up's exception or the run `FrozenOutcome` describes, whose ending `FrozenOutcomeDecided` fixes from the inputs |
| PhaseSweep.ReadXAnswers | src/pump_probe.py:189-194 | a number followed by white space reads as that number; a failed receive raises instead of being recorded |
| PhaseSweep.ReadXAgrees | src/pumpprobe.py:155-158 | on a received answer, the runners' parse and the packaged runner's agree |
| PhaseSweep.PhaseStepsLayout | src/pump_probe.py:182-190 | iteration `i` sends the phase write, `*WAI` and `X.`, with one extra `X.` (the buffering request) only in the first |
| PhaseSweep.PhaseStepsOffStm | src/pump_probe.py:178-198 | a sweep sends nothing to the STM |
| PhaseSweep.PhaseStepsSnoc | src/pump_probe.py:178-190 | one more phase sends one more iteration |
| PhaseSweep.OutcomeSnoc | src/pump_probe.py:193-195 | one more parsed answer extends the values, or the loop stays stopped |
| PhaseSweep.OutcomeSpec | src/pump_probe.py:178-195 | all values are returned exactly when every answer parses; otherwise the loop stops at the first unparsable answer with its exception |
| PhaseSweep.OutcomeStay | src/pump_probe.py:178-195 | once stopped, more iterations change nothing |
| PhaseSweep.OutcomeStep | src/pump_probe.py:189-195 | a number extends the data; an exception ends the sweep there |
| PhaseSweep.Answers | src/pump_probe.py:184-190 | one parsed answer per iteration |
| PhaseSweep.AnswersAt | src/pump_probe.py:184-190 | iteration `i` parses answer `i`, after the dropped one |
| PhaseSweep.Delays | src/pump_probe.py:179-181 | one delay per phase |
| PhaseSweep.DelayHalfPeriod | src/pump_probe.py:179-181 | the phases ±180 are half a time spread either side of the offset, a full spread apart |
| PhaseSweep.SweptSpec | src/pump_probe.py:178-198 | the sweep returns normally exactly when every answer parses; then there is one delay and one value per phase, value `k` from answer `k`; otherwise it raises the first failure's exception after sending that iteration |
| PhaseSweep.RequestX | src/pump_probe.py:184-190 | on the first iteration a dropped answer, then `X.` and the answer; no lock-in handle raises |
| PhaseSweep.SampleX | src/pump_probe.py:182-190 | the phase write, `*WAI`, then the lock-in half; a missing handle raises |
| PhaseSweep.Sweep | src/pump_probe.py:178-198 | the loop matches its specification: a missing AWG handle raises before anything is sent, a missing lock-in after the first write and wait, otherwise as in SweptSpec |
| PhaseSweep.Iterate | src/pump_probe.py:179-195 | one iteration moves the trace, the script and the console on by exactly one iteration |
| PhaseSweep.SweepLoop | src/pump_probe.py:178-198 | the loop with both handles in place, for any parse that raises on a failed receive |
| StmPumpProbe.TomlLines | src/pump_probe.py:39-45 | the TOML text splits back into exactly its seventeen lines, section by section |
| StmPumpProbe.KeyValueOf | src/pump_probe.py:41-44 | a `key: value` line reads back as its key and value |
| StmPumpProbe.PositionOneLine | src/pump_probe.py:41 | the position lines hold no line break |
| StmPumpProbe.PulseOneLine | src/pump_probe.py:42-43 | a pulse's lines hold no line break |
| StmPumpProbe.SettingsOneLine | src/pump_probe.py:44 | the settings lines hold no line break |
| StmPumpProbe.RunReturns | src/pump_probe.py:136-209 | a run returns normally exactly when the upload (if any) finds both handles, the STM takes its commands, every answer parses (or there is nothing to sweep) and a default bias is configured |
| StmPumpProbe.MeasureCompletes | src/pump_probe.py:159-209 | after the upload, with everything in place, there are `samples` delays and values, and the trace is preparation, sweep on channel 1, teardown |
| StmPumpProbe.RunCompletes | src/pump_probe.py:136-209 | a complete run: `samples` delays and values, value `k` from answer `k`, delay `k` = `(phase·spread/360 − (2·edge + width))·rate`; the trace is upload (unless repeating), freeze, bias 0.01, open channel 1, sweep, close channel 1, default bias, unlimit |
| StmPumpProbe.AwgsOffStm | src/pump_probe.py:174 | AWG commands never reach the STM |
| StmPumpProbe.SweepOffStm | src/pump_probe.py:178-198 | the sweep never reaches the STM |
| StmPumpProbe.MeasureReleasedIffReturns | src/pump_probe.py:164-209 | after the upload, the tip is released exactly when the measurement returns normally |
| StmPumpProbe.ReleasedIffReturns | src/pump_probe.py:136-209 | the tip is released exactly when the run returns normally |
| StmPumpProbe.NoDefaultBiasKeepsTip | src/pump_probe.py:200-207 | without a default bias every run raises and the tip is never released |
| StmPumpProbe.SendArbs | src/pump_probe.py:150-151 | the pump to channel 1 and the probe to channel 2, each with its error query noted |
| StmPumpProbe.UploadPair | src/pump_probe.py:147-151 | both pulses shaped by `create_arb` as written, over-padding included, and uploaded |
| StmPumpProbe.Runner.constructor | src/pump_probe.py:63-69 | `config` is kept, and the instruments assigned after `__init__` are given here, all on one bench; the None instruments of `__init__` are under "Left out" |
| StmPumpProbe.Runner.CreateExperiment | src/pump_probe.py:95-100 | both pulses get the same time spread, and the tip position is the raw X and Y replies; an STM send failure raises with nothing sent |
| StmPumpProbe.Runner.Link | src/pump_probe.py:153-157 | modulation of channel 2, channel 2 fed into channel 1, then sync |
| StmPumpProbe.Runner.Upload | src/pump_probe.py:142-157 | both resets, the pulses, the links; a missing handle raises after what was sent before it |
| StmPumpProbe.Runner.Program | src/pump_probe.py:147-157 | the pulses, then the links |
| StmPumpProbe.Runner.Prepare | src/pump_probe.py:164-174 | freeze, bias 0.01, open channel 1 |
| StmPumpProbe.Runner.Teardown | src/pump_probe.py:200-207 | close channel 1, the default bias, unlimit; without a default bias it raises after the close |
| StmPumpProbe.Runner.SweepAndRestore | src/pump_probe.py:178-209 | the sweep on channel 1, then the teardown |
| StmPumpProbe.Runner.Measure | src/pump_probe.py:159-209 | everything after the upload |
| StmPumpProbe.Runner.Run | src/pump_probe.py:136-209 | the run as written (`create_arb` called on each pulse at lines 147-148), with `default_bias` an optional setting of the configuration, ends exactly as `RunFrom` describes |
| QtPumpProbe.MakeExperiment | src/pumpprobe.py:72-76 | both pulses get the one time spread given, each pulse its own settings |
| QtPumpProbe.LinkReordered | src/pumpprobe.py:128-133 | the same three link commands as the STM runner, but with sync before combine, so the orders differ |
| QtPumpProbe.RunReturns | src/pumpprobe.py:112-177 | the intended run returns normally exactly when the upload (if any) finds both handles and every answer parses (or there is nothing to sweep) |
| QtPumpProbe.AsWrittenNeverUploads | src/pumpprobe.py:118-124 | as written (with `create_pulse` declared without `self` at line 85), a run that uploads always raises; with both instruments it raises `create_pulse`'s TypeError having sent only the two resets |
| QtPumpProbe.AsWrittenNeverSweeps | src/pumpprobe.py:144-154 | as written (the runner keeps `self.lockin`, line 46, but the sweep reads `self.lockIn`), no run takes a reading or consumes a lock-in reply; a run returns normally exactly when it repeats with no sample to take; a repeated run with samples and an AWG raises the AttributeError after the first phase write and `*WAI` |
| QtPumpProbe.SweepCompletes | src/pumpprobe.py:135-177 | with both handles and every answer parsing, one value and one delay per sample, the sweep on channel 2 |
| QtPumpProbe.NoOffset | src/pumpprobe.py:145 | each delay is `phase·(time_spread/360)·rate`, with no pump offset |
| QtPumpProbe.RunCompletes | src/pumpprobe.py:112-177 | a complete intended run returns `(data, dt)`, readings first, one per sample, sweeping channel 2 |
| QtPumpProbe.Runner.constructor | src/pumpprobe.py:43-47 | no instruments yet |
| QtPumpProbe.Runner.Link | src/pumpprobe.py:128-133 | modulation, sync, combine in that order |
| QtPumpProbe.Runner.Program | src/pumpprobe.py:123-133 | the pulses, then the links |
| QtPumpProbe.Runner.Upload | src/pumpprobe.py:118-133 | the upload as intended: both resets, the pulses, the links |
| QtPumpProbe.Runner.UploadAsWritten | src/pumpprobe.py:118-124 | the upload as written always raises: after the resets, `self.create_pulse` passes one argument too many |
| QtPumpProbe.Runner.RunAsWritten | src/pumpprobe.py:112-154 | `run(exp, repeat)` as written ends where `RunFromAsWritten` says: an upload stops at `create_pulse`, a repeated run with samples at `self.lockIn` |
| QtPumpProbe.Runner.Run | src/pumpprobe.py:112-177 | the intended run, with `create_pulse` called correctly and the sweep reading the runner's `self.lockin`, ends exactly as `RunFrom` describes |
| App.MissingSocketHint | src/app.py:94-97 | an exception naming `'send'` gets the lock-in hint |
| App.LockinHintFirst | src/app.py:96-99 | when the repr names both `'send'` and `'write'`, the lock-in hint wins |
| App.StepShape | src/app.py:88-102 | a pass paints the queue green, and on an exception adds the message and paints it red |
| App.RunOf | src/app.py:93 | the pass the worker drives is the intended `pump_probe.run`, with `create_pulse` called correctly and both instruments in place |
| App.RunOfAsWritten | src/app.py:93 | the pass is `pump_probe.run` as src/pumpprobe.py is written, with both instruments in place |
| App.UseModel | src/app.py:93 | a pass is the Qt runner's run of the head of the queue |
| App.StepCounts | src/app.py:88-102 | a pass paints green once, red once exactly when it raised, and never finishes |
| App.LastPassShape | src/app.py:87-102 | the last pass is the one that raised or the one after which the stop landed |
| App.PassThenShape | src/app.py:87-102 | a pass that did not raise is followed by the rest of the loop |
| App.LoopStep | src/app.py:87-102 | the loop ends after a pass that raised or when stopped, and otherwise runs the same head of the queue again |
| App.LoopSignals | src/app.py:87-102 | the loop only appends to the signals, ends not running, and what it appends is green passes, the last possibly red |
| App.GreetingQuiet | src/app.py:62-66 | creating and connecting never finishes and never paints the queue |
| App.StopsWithMessage | src/app.py:68-82 | a failed check ends with its message and `finished` |
| App.LoopThenFinished | src/app.py:87-106 | the loop is followed by exactly one `finished` |
| App.AppendFinished | src/app.py:106 | appending `finished` to signals without one gives exactly one, last |
| App.DispatchFinishes | src/app.py:68-106 | every way out of the checks and the loop ends with exactly one `finished` |
| App.FinishedOnce | src/app.py:60-106 | `finished` is emitted exactly once, as the last signal, on every path |
| App.LockinCheckedFirst | src/app.py:65-71 | both connections are attempted first; a lock-in failure is reported and nothing runs, whatever the AWG did |
| App.EmptyQueueRunsNothing | src/app.py:79-82 | a queue with row count 0 ends with its message and `finished`; nothing is sent or consumed and the queue is never painted |
| App.AsWrittenLoop | src/app.py:86-102 | as written, the loop ends after its first pass, which paints green, raises `create_pulse`'s TypeError having sent only the two resets, and paints red |
| App.AsWrittenStopsAfterOnePass | src/app.py:60-106 | as written, with both connections made and a queue to run, the worker stops after its first pass: green, the error message, red and one `finished`, with only the two resets sent and `running_pp` cleared |
| App.Worker.constructor | src/app.py:15-20 | not running, `repeat_arb` false, no signals |
| App.Worker.StopEarly | src/app.py:22-23 | `running_pp` is cleared |
| App.Worker.InitLockin | src/app.py:25-28 | a lock-in is created, with a message, only when there is none |
| App.Worker.InitAwg | src/app.py:30-33 | an AWG is created, with a message, only when there is none |
| App.Worker.ConnectLockin | src/app.py:35-44 | the status ends `Disconnected` exactly when the result is an error, `Connected` otherwise |
| App.Worker.ConnectAwg | src/app.py:46-55 | the status ends `Disconnected` exactly when the result is an error, `Connected` otherwise |
| App.Worker.Run | src/app.py:60-106 | `run()` ends exactly as `WorkerFrom` describes, for the pass it is given |
| App.Worker.Greet | src/app.py:62-66 | both instruments exist, and both connections were attempted, lock-in first |
| App.Worker.Drain | src/app.py:85-102 | the loop ends exactly as `Loop` describes |
| App.Worker.RunHead | src/app.py:91-93 | the head of the queue is run and stays at the head |
| App.Worker.Pass | src/app.py:87-102 | one pass moves the worker one step along `Loop` |
| Rhk.Amperes | src/RHK.py:151 | picoamperes to amperes: the result times 1e12 is the input |
| Rhk.Metres | src/RHK.py:160-161 | nanometres to metres: the result times 1e9 is the input |
| Rhk.MetresPerSecond | src/RHK.py:198 | µm/s to m/s: the result times 1e6 is the input |
| Rhk.ReadOf | src/RHK.py:37 | `float(recv())`: a failed receive raises its error, and an empty reply raises the float ValueError |
| Rhk.RaisedBy | src/RHK.py:154 | a bare `recv` raises exactly when the receive fails |
| Rhk.ReadError | src/RHK.py:37 | `float(recv())` raises exactly when the read is not a number, with the read's exception |
| Rhk.OrElse | src/RHK.py:222-229 | of two steps in sequence, the first step's exception ends the procedure; none is raised iff neither step raises |
| Rhk.TipSpeedError | src/RHK.py:222-229 | the "nm/s" branch returns iff both receives succeed |
| Rhk.LineSpeedError | src/RHK.py:230-239 | the "s/line" branch returns iff the receives and the size read succeed and `Speed` is not 0, and a zero speed after a good size raises ZeroDivisionError |
| Rhk.PixelSpeedError | src/RHK.py:240-252 | the "ms/pixel" branch returns iff the receives and both reads succeed and `NPixels·Speed/1000` is not 0, which otherwise raises ZeroDivisionError |
| Rhk.WindowError | src/RHK.py:275-286 | the window read-back returns iff all four replies parse |
| Rhk.MoveTipError | src/RHK.py:292-300 | sending the tip returns iff all three receives succeed |
| Rhk.BoundsError | src/RHK.py:35-50 | the opening of `Approach` returns iff both bounds and the height parse and the `Unlimit` receive succeeds |
| Rhk.ScanTimeError | src/RHK.py:399-408 | the scan-time estimate returns iff its three replies parse |
| Rhk.CountdownTotal | src/RHK.py:309-313 | the sleeps of the countdown add up to `Wait_Time`: whole seconds while above 1, then a last one of at most 1, positive for a positive wait |
| Rhk.RoundTripsLinear | src/RHK.py:408 | `n` lines there and back take `2·n·LineTime` |
| Rhk.ScanTimeCountsRoundTrips | src/RHK.py:408 | `2·(Lines + OverScanCount)·LineTime` is one round trip per line and over-scan line |
| Rhk.LineSeconds | src/RHK.py:250 | `NPixels·Speed/1000`: milliseconds per pixel to seconds per line |
| Rhk.CornerOnDiagonal | src/RHK.py:287-291 | the target point lies on the circle through the window's corners: half the diagonal from the centre |
| Rhk.Stm.constructor | src/RHK.py:12-17 | not cancelled, nothing sent or slept |
| Rhk.Stm.CancelRequested | src/RHK.py:110 | a read of `Cancel`; once set it stays set, and without a click it never changes |
| Rhk.Stm.Recv | src/RHK.py:113 | the next reply is consumed |
| Rhk.Stm.Exchange | src/RHK.py:153-154 | one message sent and one reply consumed; raises exactly when the receive fails |
| Rhk.Stm.Query | src/RHK.py:35-37 | one message sent and the reply read as a float |
| Rhk.Stm.Sleep | src/RHK.py:311-313 | a non-negative sleep is logged; a negative one raises ValueError and is not |
| Rhk.Stm.SetSetpoint | src/RHK.py:150-154 | the set point is sent in amperes (`Setpoint·1e-12`) |
| Rhk.Stm.SetScanWindowPosition | src/RHK.py:159-168 | the X offset then the Y offset, each in metres; a failed receive stops it after X |
| Rhk.Stm.SetIntegralGain | src/RHK.py:197-201 | the gain is sent in m/s (`IntegralGain·1e-6`) |
| Rhk.Stm.TipSpeed | src/RHK.py:222-229 | tip-speed navigation, then the speed in m/s; it raises exactly `TipSpeedError` of the replies: the first failed receive, so it returns when both receives succeed |
| Rhk.Stm.LineSpeed | src/RHK.py:230-239 | image-speed navigation, the size query, then `Size/Speed`; it raises exactly `LineSpeedError`: the failed receive or size read, ZeroDivisionError for a zero speed, or the last receive's error, so it returns iff all of those succeed |
| Rhk.Stm.PixelSpeed | src/RHK.py:240-252 | image-speed navigation, the pixel and size queries, then `Size/(NPixels·Speed/1000)`; it raises exactly `PixelSpeedError`, so it returns iff the receives and reads succeed and `NPixels·Speed/1000` is not 0 |
| Rhk.Stm.SetScanSpeed | src/RHK.py:217-252 | a pending reply is drained, then the mode's commands, raising exactly what that mode raises on the replies after the drained one; any other choice, the default list included, sends nothing and returns |
| Rhk.Stm.AwaitReply | src/RHK.py:115-121 | waiting for the reply: once cancelled nothing is read |
| Rhk.Stm.StepOutOnce | src/RHK.py:110-125 | one guarded step: a start, the wait, and a stop when Cancel is set by then |
| Rhk.Stm.ZCourseStepsOut | src/RHK.py:104-125 | at most `NSteps` starts, none once cancelled, a stop only after a cancel, a `WaitBetween` sleep per step; never cancelled, exactly `NSteps` steps |
| Rhk.Stm.ReadWindow | src/RHK.py:275-286 | angle, size, X and Y offset queried in that order and read from the replies; it raises exactly `WindowError`, the first read that fails, so it returns iff all four parse |
| Rhk.Stm.SendTip | src/RHK.py:292-300 | tip X, tip Y, then `Move Tip`; it raises exactly `MoveTipError`, the first failed receive, so it returns iff all three succeed |
| Rhk.Stm.WaitOut | src/RHK.py:309-313 | it raises the negative-sleep ValueError exactly when `Wait_Time` is negative and `Cancel` is not set at the last test; never cancelled, the sleeps are the countdown of `Wait_Time` |
| Rhk.Stm.MoveToImageStart | src/RHK.py:270-313 | the four window queries, the corner `(c·S/2 − s·S/2 + X, s·S/2 + c·S/2 + Y)` sent as X, Y, `Move Tip`; it raises exactly the first failing read or receive, or else the negative sleep, so it returns iff the replies parse and `Wait_Time >= 0` or `Cancel` is set; never cancelled, the sleeps add up to `Wait_Time` |
| Rhk.Stm.StepAndSettle | src/RHK.py:53-67 | one step in, then reads until Z settles or Cancel is set |
| Rhk.Stm.ReadBounds | src/RHK.py:35-50 | upper and lower bound queried, tip unlimited, a 0.01 s sleep, Z read; it raises exactly `BoundsError`, so it returns iff the three reads parse and the receive succeeds, and then `lower` and `z` are the second and fourth replies read |
| Rhk.Stm.Approach | src/RHK.py:34-67 | returns with Z off the lower bound unless cancelled; cancelled from the start, nothing beyond the first four messages |
| Rhk.Stm.MeasureScanTime | src/RHK.py:399-408 | lines, line time and over-scan count queried in that order; it raises exactly `ScanTimeError`, so it returns iff the three replies parse, and then the scan time is `2·(Lines + OverScanCount)·LineTime` of those replies |

## Left out

- Transports: sockets, VISA resources and `write_binary_values` are the bench's log and scripts. Socket send errors, VISA `write` errors (a `pyvisa.Error` returned as `Result(repr(e), err=True)`, ppspectroscopy/devices.py:126-127 and src/device.py:92-93), timeouts other than an exhausted script, and the lock-in's port are not modelled.
- `time.sleep` in the runners and drivers is left out; in src/RHK.py sleeps are logged, not timed.
- The console prints of `Z_Course_Steps_Out` (src/RHK.py:118 and 121) are left out: the RHK model keeps the socket traffic and the sleeps, not a console.
- Floating point: reals are exact (`1e-12`, `1e-9`, `np.single`, the division by the peak). `str(float)` is a function parameter `show`. `float()` accepts plain decimal and exponent text only.
- `np.cos`/`np.sin` in `Move_To_Image_Start` are function parameters.
- The repr of a float error quotes the reply's bytes with a simplified escape; non-ASCII bytes are not escaped.
- Text.ValueErrorText: the repr of the token escapes quotes, backslashes, control characters, the non-printable Latin-1 characters and the white space past Latin-1; other characters Python counts as non-printable (format characters, unassigned code points) are kept where Python writes `\uXXXX`. The exception is written as its class and its message, without the escaping `repr` of the exception adds when the message holds a double quote.
- The OSError that src/device.py's STM driver raises on a send over a refused connection is a fixed stand-in text (`AppDevice.Unconnected`): its errno and wording come from the operating system.
- `str.title()` and `float()` are modelled over the ASCII letters and digits: Python also title-cases other letters and reads other decimal digits, which no command or reply of this model contains. White space is Python's full `str.isspace()` set.
- pyppspec/pump_probe.py makes calls that fail against the drivers shown. They are modelled as intended, with `spectra` a parameter:
  - it calls methods the drivers lack: `.report(logger=...)`, `.value()` and `default(logger=...)`;
  - it reads an undefined `num_spectra`;
  - `set_tip_control` and `set_bias` return None, yet `.report(...)` is called on what they return (lines 193, 204-206, 259-261, 272);
  - `self.lockin.send('X.')` passes a `str` where the socket wants bytes, a TypeError that is no `socket.error` and so escapes `send` (lines 221, 236);
  - `.expected("...", logger)` passes two arguments to a one-argument method (lines 221, 223, 236, 237).
- `get_bias().value()` in pyppspec/pump_probe.py: when `get_bias` raises its ValueError, the model's intended adapter gives no number (`None`), which is what the read-back loops test for and what `set_bias` then formats as `None`.
- src/pumpprobe.py uses `self.pp` and `.amp.value()`. The intended run reads them as the runner's own config and amplitude. As written, `create_pulse` raises before either is reached.
- StmPumpProbe.Runner.constructor: starts from wired instruments. `__init__` (src/pump_probe.py:63-69) leaves `stm`, `lockin` and `awg` None until the caller assigns them, and a call on one of them before that raises `'NoneType' object has no attribute ...`; that None state is not modelled. The runner's missing handle is an instrument without a socket.
- PumpProbe.PumpProbe.Apply: the procedure's `call` (pyppspec/pump_probe.py:76, 232) may be any callable; it is modelled only as the AWG's `set_phase` or `set_amp`, the two the experiments pass. `SweepQuiet`, `PartialQuiet` and the claim that an unfinished run keeps the tip rest on this: a callable that writes to the STM is not modelled.
- PumpProbe.PumpProbe.PollOnce: the `.report(logger=logger)` on a bias reading (lines 210-212) writes nothing to the model's log; the intended adapter would log the reading or the ValueError of `get_bias`, so the log of a run lacks those lines.
- QtPumpProbe.Runner.Run requires both instruments to exist, as the worker ensures before calling it; a `None` handle there is not modelled.
- The stop click is `stopAfter` passes of the loop. A worker that is never stopped and never raises runs forever in the source; the model's loop ends when the count runs out.
- `str(e)` of the worker's exception is a parameter `show`.
- AWG `connect` lets exceptions other than ValueError escape; only the ValueError path is modelled.
- The worker's `pump_probe.run` is an abstract pass, tied to the intended `QtPumpProbe.RunFrom` by the ghost predicate `Models`, or to the as-written `QtPumpProbe.RunFromAsWritten` by `ModelsAsWritten`.
- Rhk.Stm.Approach: does not state the whole trace of the stepping loop, only its first four messages, how it ends and what a cancel does.
- Rhk.Stm.StepAndSettle: states the step's first message and the progress made, not the number of settle reads.
- Rhk.Stm.AwaitReply: states what Cancel does to it, not how many replies it consumes.
- The `ApproachToHalfway` block of `Approach` (src/RHK.py:72-97) is switched off by a constant and is not modelled.
- RHK procedures not in this model: `Initialize`, `OnClose`, `Set_Bias`, `Set_Scan_Image_Size`, `Set_Scan_Window_Angle`, `Set_Proportional_Gain`, `Set_NPixels`, `Move_Tip`, `AutoPhase`, `RampZandPulseV`, `dIdV_Spectra`, and the scan procedures beyond their scan-time formula. They start a remote procedure and wait on `recv`.
- The module-level `set_phase` and `Disconnect_*` of src/RHK.py:533-543 use undefined globals and are left out.
- `generate_meta` reads `os.environ` and `datetime` and is left out.
- `set_sensitivity` and `AWG.close` of ppspectroscopy/devices.py, and `STM.connect`, `set_position`, `get_position` and `image` of its `RHK_R9`, are not part of this model.
- Plotting (the `plotter` signals and the matplotlib calls in src/pumpprobe.py `run`), `MainWindow` and the Qt widgets are left out.
- App.RunOf: is the intended `pump_probe.run`, with `create_pulse` called correctly. As written, every pass that uploads raises `create_pulse`'s TypeError. `App.RunOfAsWritten` is that pass, and `App.AsWrittenStopsAfterOnePass` states where it leaves the worker.
- App.Worker.Run: drives the intended run through `Models`, so its trace never shows the as-written TypeError. As written, with both connections made and a queue to run, the worker stops after one pass with that error, red and one `finished`, as `App.AsWrittenStopsAfterOnePass` states.

## Findings

| source | as written | input that shows it | evidently intended | confidence | as-written member | corrected member |
|---|---|---|---|---|---|---|
| pyppspec/pump_probe.py:139-141 (also src/pump_probe.py:126-128, src/pumpprobe.py:102-104) | pads `max(32, round(time_spread·1e9) − len)` zeros, so a pulse less than 32 samples short of a period gets 32 zeros and overruns it | edge 40 ns, width 10 ns, time spread 100 ns: a 90-sample pulse padded to 122 samples | pad with zeros up to one period of `max(32, round(time_spread·1e9))` samples | not executed | Waveform.CreateArbAsWritten, Waveform.CreateArbAsWrittenShape, Waveform.AsWrittenOverPads, Waveform.OverPaddedPulse | Waveform.CreateArbShape |
| src/pumpprobe.py:85, 123-124 | `create_pulse` is declared without `self` but called as `self.create_pulse(pulse)` | any run with `repeat` false: TypeError after both resets | a static helper, or `self` in its signature, so the upload proceeds | not executed | QtPumpProbe.Runner.UploadAsWritten, QtPumpProbe.AsWrittenNeverUploads, App.AsWrittenStopsAfterOnePass | QtPumpProbe.Runner.Upload |
| src/pumpprobe.py:46, 149-154 | the sweep reads `self.lockIn`, but `__init__` and the worker (src/app.py:28) set `self.lockin` | a repeated run with `samples` 1 or more and an AWG handle: AttributeError after the first phase write and `*WAI` | the runner's `self.lockin`, so the sweep reads the lock-in | not executed | QtPumpProbe.AsWrittenNeverSweeps, QtPumpProbe.Runner.RunAsWritten | QtPumpProbe.SweepCompletes, QtPumpProbe.Runner.Run |
| src/pump_probe.py:50-58, 204 | `run` reads `self.config.default_bias`, which `PumpProbeConfig` does not declare | any run that gets past the sweep: AttributeError after channel 1 is closed, and the tip stays frozen | a `default_bias` field in the configuration, so the bias is restored and the tip released | not executed | StmPumpProbe.NoDefaultBiasKeepsTip, StmPumpProbe.Runner.Teardown | StmPumpProbe.ReleasedIffReturns, StmPumpProbe.RunReturns |
