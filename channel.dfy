/**
  The device channel: the bounded retry rule of the HID write, the request and
  response cycle that reads the gain register, and the device itself, seen as a
  register (raw gain, mute bit) together with the trace of every command
  written to it.
*/
module Channel {
  import opened Codec

  // ---------------------------------------------------------------- write with retry

  /** What one HID write call does: returns a byte count, fails with the "busy" code 0x000003E5, or fails otherwise. */
  datatype WriteOutcome = Written(count: int) | Busy | Failed

  /**
    _safe_write over the outcomes the device would give to successive attempts:
    up to `retries` attempts, the next one made only after a busy failure, then
    one final attempt whatever it gives. `last` is the outcome that ends the call
    (a count is returned, a failure is raised) and `attempts` counts the writes made.
  */
  method SafeWrite(outcomes: seq<WriteOutcome>, retries: nat) returns (last: WriteOutcome, attempts: nat)
    requires retries < |outcomes|
    ensures 1 <= attempts <= retries + 1
    ensures forall i :: 0 <= i < attempts - 1 ==> outcomes[i].Busy?
    ensures last == outcomes[attempts - 1]
    ensures attempts <= retries ==> !last.Busy?
  {
    attempts := 0;
    while attempts < retries
      invariant attempts <= retries
      invariant forall i :: 0 <= i < attempts ==> outcomes[i].Busy?
    {
      last := outcomes[attempts];
      attempts := attempts + 1;
      if !last.Busy? {
        return;
      }
    }
    last := outcomes[attempts];
    attempts := attempts + 1;
  }

  // ---------------------------------------------------------------- gain read

  /** What _read_gain_raw gives: a timeout, another failure, or the decoded gain, mute bit and report. */
  datatype GainRead =
    | ReadTimeout
    | ReadFailed
    | Reading(gain: int, muted: bool, raw: seq<byte>)

  /**
    The response half of _read_gain_raw: `reports` are the reads that arrive within
    the 300 ms window (an empty one is a read that timed out). Non-matching reports
    are skipped; the first matching one is the answer; a tagged but short report
    makes the indexing fail; if none matches, the read times out. `used` counts the
    reports consumed.
  */
  method ReadGainRaw(reports: seq<seq<byte>>) returns (res: GainRead, used: nat)
    ensures used <= |reports|
    ensures forall j :: 0 <= j < used - 1 ==> DecodeReport(reports[j]).NoMatch?
    ensures res.ReadTimeout? <==> used == |reports| && forall j :: 0 <= j < |reports| ==> DecodeReport(reports[j]).NoMatch?
    ensures res.ReadFailed? ==> 0 < used && DecodeReport(reports[used - 1]).Truncated?
    ensures res.Reading? ==>
              && 0 < used
              && DecodeReport(reports[used - 1]).Gain?
              && res.gain == DecodeGain(DecodeReport(reports[used - 1]).raw)
              && res.muted == DecodeReport(reports[used - 1]).muted
              && res.raw == StripReportId(reports[used - 1])
  {
    used := 0;
    while used < |reports|
      invariant used <= |reports|
      invariant forall j :: 0 <= j < used ==> DecodeReport(reports[j]).NoMatch?
    {
      var d := DecodeReport(reports[used]);
      used := used + 1;
      match d
      case NoMatch =>
      case Truncated =>
        return ReadFailed, used;
      case Gain(raw, muted) =>
        return Reading(DecodeGain(raw), muted, StripReportId(reports[used - 1])), used;
    }
    res := ReadTimeout;
  }

  // ---------------------------------------------------------------- the device

  /** The device as the rest of the program sees it. */
  datatype Hardware = Hardware(raw: byte, muted: bool, sent: seq<Command>)

  /** The gain the register holds, in half-dB steps. */
  function HwGain(hw: Hardware): int
  {
    DecodeGain(hw.raw)
  }

  /** A gain read sends the request frame; the register is unchanged. */
  function HwRead(hw: Hardware): Hardware
  {
    hw.(sent := hw.sent + [GainRequest])
  }

  /** _write_gain: the clamped, encoded gain is sent and lands in the register. */
  function HwWriteGain(hw: Hardware, h: int): (hw': Hardware)
    ensures HwGain(hw') == Clamp(h) && hw'.muted == hw.muted
    ensures hw'.sent == hw.sent + [SetGain(EncodeGain(h))]
  {
    hw.(raw := EncodeGain(h), sent := hw.sent + [SetGain(EncodeGain(h))])
  }

  /** _write_mute: the mute command is sent and sets the mute bit. */
  function HwWriteMute(hw: Hardware, on: bool): Hardware
  {
    hw.(muted := on, sent := hw.sent + [SetMute(on)])
  }

  class Device {
    var raw: byte
    var muted: bool
    var sent: seq<Command>

    function Abstract(): Hardware
      reads this
    {
      Hardware(raw, muted, sent)
    }

    constructor (raw: byte, muted: bool)
      ensures Abstract() == Hardware(raw, muted, [])
    {
      this.raw, this.muted, this.sent := raw, muted, [];
    }

    /**
      _read_gain_raw against the register: the request is sent, the register answers
      with one gain response, and the response loop decodes it to the gain in
      half-dB steps and the mute bit.
    */
    method ReadGain() returns (gain: int, isMuted: bool)
      modifies this
      ensures gain == HwGain(old(Abstract())) && isMuted == old(muted)
      ensures Abstract() == HwRead(old(Abstract()))
    {
      sent := sent + [GainRequest];
      var response := GainResponse(raw, if muted then 1 else 0, []);
      DecodeGainResponse(raw, if muted then 1 else 0, []);
      var res, used := ReadGainRaw([response]);
      assert DecodeReport([response][0]).Gain?;
      gain, isMuted := res.gain, res.muted;
    }

    method WriteGain(h: int)
      modifies this
      ensures Abstract() == HwWriteGain(old(Abstract()), h)
    {
      var v := EncodeGain(h);
      sent := sent + [SetGain(v)];
      raw := v;
    }

    method WriteMute(on: bool)
      modifies this
      ensures Abstract() == HwWriteMute(old(Abstract()), on)
    {
      sent := sent + [SetMute(on)];
      muted := on;
    }
  }
}
