# miniDSP gain helper: frame codec, reconciliation state machine and poll cycle

This project models the core of the miniDSP gain helper (`core3.py`). The helper
drives the attenuation of a miniDSP USB-HID device from keyboard hotkeys, and it
follows changes made with the device's own remote by polling the gain register.
The model is written in Dafny and proved against the properties below.

- `codec.dfy` (module `Codec`) is the HID frame codec. It has the additive
  checksum (CHK) and the 65-byte output report (PAD). It builds the gain-read
  request and the gain and mute commands, and it decodes the `06 05 FF DA` gain
  response. Gains are whole half-dB steps: a step count `h` stands for `h / 2` dB,
  and the raw register byte is `-h`. The floating-point entry point of the gain
  write is modelled separately on exact reals, including Python's round-half-even
  `round`, and is proved to agree with the step encoding on the half-dB grid.
- `channel.dfy` (module `Channel`) covers the device channel:
  - the busy-retry rule of the HID write, over the sequence of outcomes the device
    gives;
  - the response loop of the gain read, over the reports that arrive in the read
    window;
  - the device itself, a class holding the gain register, the mute bit and the
    trace of every command written to it.
- `transitions.dfy` (module `Transitions`) holds the controller's reconciliation
  state as a value. Its handlers are functions: the twelve cases of the table,
  `apply_gain`, `apply_delta`, `apply_digital_unmute` and the dispatch of
  `handle_event`. This module also proves the properties of the table and the
  balance of the re-entrant `suspend_polling` counter.
- `volume.dfy` (module `Volume`) is the `VolumeState` class. Its fields are
  updated in place by methods that mirror the source's methods. Cases 1, 4 and 7
  have identical bodies and share `RestoreSavedGain`. Cases 8 and 9 are single
  display calls, written inline in `HandleEvent`. `suspend_polling` is written as
  the increment and the restoring decrement inside `ApplyGain` and
  `ApplyDigitalUnmute`. Each method is proved to leave exactly the state the
  matching `Transitions` function gives.
- `polling.dfy` (module `Polling`) covers the poller. It has one attempt of the
  priming phase and the steady-state body of the poll loop, both as functions.
  The `Poller` class holds `prev_db` and `prev_raw` and runs one cycle in place
  against a `VolumeState`.

## Model

| member | source | states |
|---|---|---|
| Codec.SumAppend | core3.py:121 | the byte sum splits over concatenation |
| Codec.ChecksumPermutation | core3.py:121 | CHK depends only on which bytes are summed, not on their order |
| Codec.Pad | core3.py:122 | the report is the id 0x00, then the payload unchanged, then 0xFF fill up to 64 payload bytes; its length is 65 for short payloads and a longer payload is never cut |
| Codec.WithChecksum | core3.py:161 | a command payload is its body followed by one byte, the body's sum mod 256 |
| Codec.FrameLayout | core3.py:121-122 | every outgoing command buffer is exactly 65 bytes: 0x00, the checksummed payload unchanged, then 0xFF fill |
| Codec.GainRequestBytes | core3.py:140 | the gain-read request payload is 05 05 FF DA 02 E5 |
| Codec.DecodeReport | core3.py:144-151 | a report is accepted exactly when it is non-empty and, after one leading 0x00 is stripped, starts with 06 05 FF DA; an accepted report shorter than 6 bytes fails (the indexing error), and a longer one gives raw = byte 4 and muted = byte 5 != 0 of the stripped report |
| Codec.DecodeGainResponse | core3.py:146-151 | a gain response decodes to raw = byte 4 and muted = (byte 5 != 0), with or without the leading report id |
| Codec.DecodeSkipsForeignReports | core3.py:147 | a report without the tag is skipped |
| Codec.Clamp | core3.py:159 | the clamped gain lies in [-127.0, 0.0] dB; it is the gain itself inside the range and the nearer bound outside it |
| Codec.EncodeGain | core3.py:159-161 | the raw byte written is in [0, 254] and decodes (dB = -0.5 * raw) to the clamped gain |
| Codec.EncodeDecodeGain | core3.py:149-160 | a raw value in [0, 254] read back and written again gives the same byte |
| Codec.ClampDb | core3.py:159 | max(min(db, 0.0), -127.0) lies in [-127, 0], is the identity inside it, gives 0.0 above it and -127.0 below it |
| Codec.RoundHalfEven | core3.py:160 | round() lands within 0.5 of its argument and breaks ties to the even integer |
| Codec.EncodeDbOnGrid | core3.py:159-160 | on the half-dB grid, int(round(-2 * clamp(db))) equals the step encoding |
| Codec.EncodeDbRoundTrip | core3.py:149-160 | any dB value written and read back lands within 0.25 dB of its clamped value |
| Codec.EncodeDbExamples | core3.py:155-162 | -200.0 and -126.9 encode to raw 254, 0.0 to 0 and -20.0 to 40 (which reads back as -20.0); the -200.0 payload is 03 42 FE CHK |
| Codec.MuteThresholdInSteps | core3.py:20 | a decoded gain is at or below MUTE_THRESHOLD (-126.9 dB) exactly when it is at or below -127.0 dB, i.e. raw 254 or 255 |
| Channel.SafeWrite | core3.py:124-134 | at most retries + 1 writes are made; every write before the last one was busy; the call ends on the first non-busy outcome, or after the final extra attempt whatever it gives |
| Channel.ReadGainRaw | core3.py:143-152 | non-matching reports are skipped; the read times out exactly when no report matches; a tagged report that is too short fails; the first matching report gives dB = -0.5 * byte 4, muted = byte 5 != 0 and the stripped report |
| Channel.HwWriteGain | core3.py:155-162 | after a gain write the register holds the clamped gain, the mute bit is unchanged, and exactly one SetGain command with the encoded byte was sent |
| Channel.Device.ReadGain | core3.py:137-151 | a gain read sends one gain request, and the response loop run on the register's answer returns the register's gain and mute bit |
| Channel.Device.WriteGain | core3.py:155-162 | the device is left as HwWriteGain says |
| Channel.Device.WriteMute | core3.py:165-169 | the mute bit becomes the written value and one SetMute command is sent |
| Transitions.Step | core3.py:311-364 | handling an event never changes the suspend counter or the poller's snapshot; it only appends to the command trace; it raises only when the saved gain was never set; a set saved gain stays set; RC_VOL never touches the digital mute flag or bit |
| Transitions.KbVolFromKeyboardMuted | core3.py:233-237 | KB_VOL when keyboard-muted writes and displays the saved gain, clears keyboard_muted, keeps the saved gain, and the delta has no effect; nothing else changes (exact outcome) |
| Transitions.KbVolFromNormal | core3.py:240-243 | KB_VOL in the normal regime reads the gain, writes clamp(cur + delta), displays it, reads again and resyncs the saved gain to the hardware value; nothing else changes (exact outcome) |
| Transitions.KbMuteFromNormal | core3.py:259-265 | KB_MUTE_TOGGLE in the normal regime saves the hardware gain, writes and displays -127.0, and sets keyboard_muted and the RC_VOL echo guard; nothing else changes (exact outcome) |
| Transitions.KeyboardEventFromDigitalMuted | core3.py:245-272 | a keyboard event while digitally muted clears the digital mute flag and bit and keeps the saved gain; KB_VOL (case 3) sends mute-off then the saved gain, which the register then holds (it raises only if the gain is unset); KB_MUTE_TOGGLE (case 6) sends only mute-off and displays the saved gain; both block the next save-only; for each event and saved gain the exact outcome is stated, so no other field changes |
| Transitions.KbMuteFromKeyboardMuted | core3.py:254-257 | KB_MUTE_TOGGLE when keyboard-muted (case 4) writes and displays the saved gain, clears keyboard_muted, keeps the saved gain, and has the same effect as any KB_VOL there; nothing else changes (exact outcome) |
| Transitions.KeyboardEventsIgnoreSnapshot | core3.py:315-317 | keyboard events take their regime from the live flags; the poller's snapshot plays no part |
| Transitions.RemoteEventsIgnoreLiveFlags | core3.py:318-320 | remote events take their regime from prev_kb/prev_dig; the live flags change nothing else |
| Transitions.EchoGuardConsumedOnce | core3.py:340-344 | with the echo guard set, the next RC_VOL is dropped with no write and no display, the guard is cleared, and the following RC_VOL goes through the regime table |
| Transitions.RemoteVolumeCases | core3.py:275-289 | past the echo guard, RC_VOL from keyboard-muted (case 7) writes back and displays the saved gain and clears keyboard_muted; from normal (case 8) it only displays the new gain; otherwise (case 9) it only displays the saved gain; cases 8 and 9 send nothing and change no flag; each case is stated as its exact outcome |
| Transitions.KeyboardMuteEchoSwallowed | core3.py:259-265 | after a keyboard mute from normal, the RC_VOL echo of the -127.0 write leaves hardware, display, saved gain and keyboard_muted as the mute left them |
| Transitions.RemoteMuteClearsSaveOnlyGuard | core3.py:355-364 | after an RC_MUTE_TOGGLE that completes, whichever case ran, skip_save_only is false; it raises exactly when case 10 must restore an unset saved gain |
| Transitions.RemoteMuteSavesOnlyInNormal | core3.py:355-361 | case 11 (display -127.0, save the hardware gain) runs exactly in the normal snapshot regime with skip_save_only clear; every other branch keeps the saved gain and displays it; case 11 is stated as its exact outcome (one gain request sent, no flag moves) |
| Transitions.RemoteMuteFromKeyboardMuted | core3.py:293-296 | RC_MUTE_TOGGLE from a keyboard-muted snapshot (case 10) sends mute-off then the saved gain, leaves the register at the clamped saved gain, clears the mute bit and digital_muted, keeps keyboard_muted and the saved gain, displays the saved gain and ends with skip_save_only false; nothing else changes (exact outcome) |
| Transitions.RemoteMuteDisplayOnly | core3.py:305-308 | RC_MUTE_TOGGLE from a digitally muted snapshot, or from normal with save-only blocked (case 12), only displays the saved gain and clears skip_save_only; nothing is sent and no other field changes |
| Transitions.FlagsChangeOnlyInTheirCases | core3.py:311-364 | over every event and state: the echo guard is armed only by a keyboard mute from normal and cleared only by the RC_VOL it guards; skip_save_only changes only on a remote mute toggle or a keyboard event while digitally muted; digital_muted only goes to false, together with the hardware bit; keyboard_muted is set only by a keyboard mute from normal and is never changed by a remote mute toggle |
| Transitions.SuspendBalanced | core3.py:191-197 | for any nesting of suspended blocks, on normal and on raising exits, the counter returns to its entry value and never drops below it |
| Volume.VolumeState.constructor | core3.py:180-189 | a new state has both mute flags, both guards and the snapshot false, counter 0 and no saved gain |
| Volume.VolumeState.ShowOsd | core3.py:221-223 | the display trace gains exactly the shown value |
| Volume.VolumeState.CurrentGain | core3.py:226-229 | returns the register's gain, sending one gain request |
| Volume.VolumeState.ApplyGain | core3.py:200-204 | the counter is back at its entry value; an unset gain raises before anything is written or shown; otherwise the clamped gain is written and the argument itself, unclamped, is displayed |
| Volume.VolumeState.ApplyDelta | core3.py:207-211 | the hardware gain becomes clamp(current + delta) |
| Volume.VolumeState.ApplyDigitalUnmute | core3.py:214-218 | the mute bit and digital_muted are cleared and the counter is restored |
| Volume.VolumeState.SaveCurrentGain | core3.py:243 | the saved gain becomes the hardware gain |
| Volume.VolumeState.RestoreSavedGain | core3.py:233-237 | cases 1, 4 and 7 leave the state Transitions.RestoreSavedGain gives |
| Volume.VolumeState.KbVolCase2 | core3.py:240-243 | case 2 leaves the state Transitions.KbVolCase2 gives |
| Volume.VolumeState.KbVolCase3 | core3.py:246-250 | case 3 leaves the state Transitions.KbVolCase3 gives |
| Volume.VolumeState.KbMuteCase5 | core3.py:260-265 | case 5 leaves the state Transitions.KbMuteCase5 gives |
| Volume.VolumeState.KbMuteCase6 | core3.py:268-272 | case 6 leaves the state Transitions.KbMuteCase6 gives |
| Volume.VolumeState.RcMuteCase10 | core3.py:293-296 | case 10 leaves the state Transitions.RcMuteCase10 gives, whose effect Transitions.RemoteMuteFromKeyboardMuted states |
| Volume.VolumeState.RcMuteCase11 | core3.py:299-302 | case 11 leaves the state Transitions.RcMuteCase11 gives |
| Volume.VolumeState.RcMuteCase12 | core3.py:305-308 | case 12 leaves the state Transitions.RcMuteCase12 gives, whose effect Transitions.RemoteMuteDisplayOnly states |
| Volume.VolumeState.HandleEvent | core3.py:311-364 | handle_event leaves the state Transitions.Step gives and raises exactly when it does, so every Step property holds of the class |
| Polling.PollStep | core3.py:422-463 | a cycle emits an event only for a non-zero reading while not suspended; it emits RC_MUTE_TOGGLE exactly when the mute bit differs from digital_muted; a cycle that ends the loop leaves the snapshot alone; the suspend counter is never changed |
| Polling.FailedReadsChangeNothing | core3.py:413-420 | a read timeout changes nothing and polling goes on; any other read failure changes nothing and ends the loop |
| Polling.NoiseReadingIgnored | core3.py:423-425 | a 0.0 dB reading changes nothing |
| Polling.SuspendedCycleOnlyResyncs | core3.py:428-433 | while suspended, only prev_db/prev_raw follow the reading; no flag changes and no event |
| Polling.ActiveCycleEmitsAtMostOne | core3.py:436-462 | an active cycle sets keyboard_muted from the threshold and digital_muted from the bit. It then emits RC_MUTE_TOGGLE if the bit flipped, else RC_VOL(db) if db differs from prev_db, else nothing. An event is handled with prev_kb/prev_dig set to the old flags |
| Polling.GainChangeEmitsOneRcVol | core3.py:454-462 | two consecutive different non-zero readings with the mute bit steady: the second cycle emits exactly one RC_VOL carrying the flags the first cycle left |
| Polling.PrimeStep | core3.py:386-408 | priming finishes exactly on a non-zero reading, which becomes the saved gain, the snapshot and the display; a timeout or noise retries with nothing changed; only a non-timeout failure ends the thread |
| Polling.Poller.Prime | core3.py:386-408 | one priming attempt leaves the state and snapshot PrimeStep gives |
| Polling.Poller.Emit | core3.py:447-462 | the event is handled with the old flags as snapshot; the reading becomes prev_db/prev_raw only if the handler did not raise |
| Polling.Poller.PollCycle | core3.py:411-463 | one cycle leaves the state, snapshot, continuation and emitted event PollStep gives |

## Left out

- The Win32 keyboard, message and mouse hook procedures and their installation and cleanup are not modelled. They are foreign calls whose only effect is to submit `step(±0.5·n)` or `toggle_mute`.
- The `step` and `toggle_mute` entry points, with their `_paused` gate, are not modelled. They forward to `handle_event` unchanged.
- Logging, log-file rotation and `log_exceptions` are left out. The decorator only logs and re-raises.
- Device discovery (`hid.enumerate`) and `set_device` are left out.
- Threading, `_lock`, the executor, `start_polling`/`stop_polling` and every `time.sleep` are left out.
- The wall-clock 0.3 s read window is modelled as the finite sequence of reads that arrive in it.
- The flush loop at the start of the poller is left out.
- The flush read inside `_write_gain` is left out. Its result is discarded.
- The device is a register that follows only the controller's own writes: every write lands, and the controller's own reads (`current_gain`, `apply_delta`) answer from it. Write failures, whether busy or otherwise, are therefore not fed into the state machine; `SafeWrite` models the retry rule on its own.
- Polling.PollStep, Polling.PrimeStep, Polling.Poller.PollCycle: the poll reading is an independent input, not tied to the register. A change made with the remote control is seen only through the reading; the register does not follow it. The model therefore does not capture that a later `apply_delta` starts from the remote's gain.
- The gain request in `_read_gain_raw` is written without the retry rule, as in the source. Its failure is not modelled.
- Gains inside the state machine are whole half-dB steps. This is exact for the source, whose deltas are multiples of 0.5 dB and whose readings are -0.5 * raw. Float dB is modelled only at the write entry point, as exact reals (`Codec.EncodeDb`), so binary floating-point rounding is not captured.
- The mute threshold -126.9 dB is taken as "raw 254 or 255", which is what `db <= MUTE_THRESHOLD` gives on decoded values. It is not "raw == 254": the response byte can also be 255.
- The OSD callback is a trace of displayed values. `None` is shown when an unset saved gain is displayed.
- The GUI, theming, CLI files and the `core/` package are not part of this model.
- Volume.VolumeState.ApplyGain: does not expose the counter's value inside the suspended block; the nesting property is stated on the `Scope` model in `Transitions.SuspendBalanced`.
