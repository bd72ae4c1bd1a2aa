/**
  The HID frame codec of the miniDSP volume controller: the additive checksum,
  the 65-byte output report, the three commands the program sends, the decoding
  of the gain response, and the gain encoding.

  Gains are counted in half-dB steps: a step value `h` stands for `h / 2` dB, so
  the hardware range [-127.0, 0.0] dB is [-254, 0] and the raw register byte is `-h`.
  The `real` functions at the end model the floating-point entry point of the
  gain write and relate it to the step encoding.
*/
module Codec {

  type byte = x: int | 0 <= x < 256

  const ReportId: byte := 0x00
  const Fill: byte := 0xFF
  /** Payload bytes in one report; the report itself carries the report id in front. */
  const PayloadLength := 64
  const ReportLength := 65

  // ---------------------------------------------------------------- checksum

  /** The bytes added up as an unbounded integer. */
  function Sum(bs: seq<byte>): nat
  {
    if bs == [] then 0 else bs[0] + Sum(bs[1..])
  }

  /** CHK: the sum of the given bytes modulo 256. */
  function Checksum(bs: seq<byte>): byte
  {
    Sum(bs) % 256
  }

  lemma {:induction false} SumAppend(a: seq<byte>, b: seq<byte>)
    ensures Sum(a + b) == Sum(a) + Sum(b)
  {
    if a == [] {
      assert a + b == b;
    } else {
      assert (a + b)[1..] == a[1..] + b;
      SumAppend(a[1..], b);
    }
  }

  /** The checksum depends only on which bytes are summed, not on their order. */
  lemma {:induction false} ChecksumPermutation(a: seq<byte>, b: seq<byte>)
    requires multiset(a) == multiset(b)
    ensures Sum(a) == Sum(b) && Checksum(a) == Checksum(b)
    decreases |a|
  {
    if a == [] {
      assert |b| == |multiset(b)| == 0;
    } else {
      var x := a[0];
      assert x in multiset(a);
      assert x in b;
      var k :| 0 <= k < |b| && b[k] == x;
      assert b == b[..k] + [x] + b[k+1..];
      var rest := b[..k] + b[k+1..];
      calc {
        multiset(a[1..]);
        { assert a == [x] + a[1..]; }
        multiset(a) - multiset{x};
        multiset(b[..k]) + multiset{x} + multiset(b[k+1..]) - multiset{x};
        multiset(rest);
      }
      ChecksumPermutation(a[1..], rest);
      SumAppend(b[..k] + [x], b[k+1..]);
      SumAppend(b[..k], [x]);
      SumAppend(b[..k], b[k+1..]);
      assert Sum([x]) == x;
    }
  }

  // ---------------------------------------------------------------- framing

  /**
    PAD: the report id, then the payload unchanged, then 0xFF fill up to 64
    payload bytes. A payload of 64 bytes or more is not cut (ljust never truncates).
  */
  function Pad(payload: seq<byte>): (report: seq<byte>)
    ensures |report| == 1 + (if |payload| < PayloadLength then PayloadLength else |payload|)
    ensures report[0] == ReportId && report[1..1 + |payload|] == payload
    ensures forall i :: 1 + |payload| <= i < |report| ==> report[i] == Fill
  {
    var fill := if |payload| < PayloadLength then seq(PayloadLength - |payload|, _ => Fill) else [];
    [ReportId] + payload + fill
  }

  /** The payload ends with the checksum of every byte before it. */
  predicate Checksummed(payload: seq<byte>)
  {
    |payload| >= 1 && payload[|payload| - 1] == Checksum(payload[..|payload| - 1])
  }

  function WithChecksum(body: seq<byte>): (payload: seq<byte>)
    ensures |payload| == |body| + 1 && payload[..|body|] == body && Checksummed(payload)
  {
    body + [Checksum(body)]
  }

  /** The commands the program writes to the device. */
  datatype Command =
    | GainRequest          // read request for the gain register
    | SetGain(raw: byte)   // gain write, raw = -(half-dB steps)
    | SetMute(on: bool)    // digital mute write

  function CommandBody(c: Command): seq<byte>
  {
    match c
    case GainRequest => [0x05, 0x05, 0xFF, 0xDA, 0x02]
    case SetGain(raw) => [0x03, 0x42, raw]
    case SetMute(on) => [0x03, 0x17, if on then 0x01 else 0x00]
  }

  function Payload(c: Command): seq<byte>
  {
    WithChecksum(CommandBody(c))
  }

  /** The exact bytes handed to the HID write call for a command. */
  function Frame(c: Command): seq<byte>
  {
    Pad(Payload(c))
  }

  /**
    Every outgoing buffer is 65 bytes: report id 0x00, the payload unchanged, 0xFF
    fill; the payload's last byte is the sum of the bytes before it modulo 256.
  */
  lemma FrameLayout(c: Command)
    ensures |Payload(c)| <= PayloadLength
    ensures |Frame(c)| == ReportLength
    ensures Frame(c)[0] == ReportId && Frame(c)[1..1 + |Payload(c)|] == Payload(c)
    ensures Checksummed(Payload(c))
    ensures forall i :: 1 + |Payload(c)| <= i < ReportLength ==> Frame(c)[i] == Fill
  {
  }

  /** The gain-request payload is 05 05 FF DA 02 E5. */
  lemma GainRequestBytes()
    ensures Payload(GainRequest) == [0x05, 0x05, 0xFF, 0xDA, 0x02, 0xE5]
  {
    assert Sum([0x05, 0x05, 0xFF, 0xDA, 0x02]) == 485;
  }

  // ---------------------------------------------------------------- gain response

  const GainResponseTag: seq<byte> := [0x06, 0x05, 0xFF, 0xDA]

  datatype Decoded =
    | NoMatch                        // other traffic on the bus: skipped
    | Truncated                      // tagged but too short: indexing it fails
    | Gain(raw: byte, muted: bool)   // the gain register and the mute bit

  /** One leading 0x00 report id is removed before matching. */
  function StripReportId(report: seq<byte>): seq<byte>
  {
    if |report| > 0 && report[0] == ReportId then report[1..] else report
  }

  predicate Tagged(s: seq<byte>)
  {
    |s| >= 4 && s[..4] == GainResponseTag
  }

  /**
    Decoding of one report read while waiting for the gain response: an empty read
    is skipped, a leading report id is stripped, only the 06 05 FF DA tag is
    accepted; byte 4 is the raw gain and byte 5 non-zero means muted.
  */
  function DecodeReport(report: seq<byte>): (d: Decoded)
    ensures !d.NoMatch? <==> |report| > 0 && Tagged(StripReportId(report))
    ensures !d.NoMatch? ==> (d.Truncated? <==> |StripReportId(report)| < 6)
    ensures d.Gain? ==> |StripReportId(report)| >= 6
                        && d.raw == StripReportId(report)[4]
                        && d.muted == (StripReportId(report)[5] != 0)
  {
    if |report| == 0 then NoMatch
    else
      var s := StripReportId(report);
      if !Tagged(s) then NoMatch
      else if |s| < 6 then Truncated
      else Gain(s[4], s[5] != 0)
  }

  /** The gain response as the device sends it: report id, tag, raw gain, mute byte, anything. */
  function GainResponse(raw: byte, muteByte: byte, rest: seq<byte>): seq<byte>
  {
    [ReportId] + GainResponseTag + [raw, muteByte] + rest
  }

  /** A gain response decodes to its raw gain and mute bit, with or without the report id. */
  lemma DecodeGainResponse(raw: byte, muteByte: byte, rest: seq<byte>)
    ensures DecodeReport(GainResponse(raw, muteByte, rest)) == Gain(raw, muteByte != 0)
    ensures DecodeReport(GainResponse(raw, muteByte, rest)[1..]) == Gain(raw, muteByte != 0)
  {
    var r := GainResponse(raw, muteByte, rest);
    assert r[1..][..4] == GainResponseTag;
    assert r[1..][4] == raw && r[1..][5] == muteByte;
  }

  /** A report whose (stripped) first four bytes are not the tag is skipped. */
  lemma DecodeSkipsForeignReports(report: seq<byte>)
    requires !Tagged(StripReportId(report))
    ensures DecodeReport(report) == NoMatch
  {
  }

  // ---------------------------------------------------------------- gain encoding

  /** -127.0 dB, the hard mute floor, in half-dB steps. */
  const MuteFloor: int := -254

  /** max(min(db, 0.0), -127.0) in half-dB steps. */
  function Clamp(h: int): (c: int)
    ensures MuteFloor <= c <= 0
    ensures MuteFloor <= h <= 0 ==> c == h
    ensures h > 0 ==> c == 0
    ensures h < MuteFloor ==> c == MuteFloor
  {
    if h > 0 then 0 else if h < MuteFloor then MuteFloor else h
  }

  /** db = -0.5 * raw, in half-dB steps. */
  function DecodeGain(raw: byte): int
  {
    -(raw as int)
  }

  /** The raw byte written for a gain: always in [0, 254], and it reads back as the clamped gain. */
  function EncodeGain(h: int): (raw: byte)
    ensures raw <= -MuteFloor
    ensures DecodeGain(raw) == Clamp(h)
  {
    -Clamp(h)
  }

  /** A gain already on the hardware range survives a write and a read unchanged. */
  lemma EncodeDecodeGain(raw: byte)
    requires raw <= -MuteFloor
    ensures EncodeGain(DecodeGain(raw)) == raw
  {
  }

  // ---------------------------------------------------------------- floating-point entry

  function ClampDb(db: real): (c: real)
    ensures -127.0 <= c <= 0.0
    ensures -127.0 <= db <= 0.0 ==> c == db
    ensures db > 0.0 ==> c == 0.0
    ensures db < -127.0 ==> c == -127.0
  {
    if db > 0.0 then 0.0 else if db < -127.0 then -127.0 else db
  }

  /** Python's round(): to the nearest integer, halves to the even one. */
  function RoundHalfEven(x: real): (n: int)
    ensures (n as real) - x <= 0.5 && x - (n as real) <= 0.5
    ensures ((n as real) - x == 0.5 || x - (n as real) == 0.5) ==> n % 2 == 0
  {
    var f := x.Floor;
    var frac := x - f as real;
    if frac < 0.5 then f
    else if frac > 0.5 then f + 1
    else if f % 2 == 0 then f
    else f + 1
  }

  /** _write_gain's arithmetic: clamp, then int(round(-2 * db)). */
  function EncodeDb(db: real): (raw: byte)
  {
    var x := -2.0 * ClampDb(db);
    var n := RoundHalfEven(x);
    assert 0.0 <= x <= 254.0;
    assert n as real <= 254.5 && n as real >= -0.5;
    n
  }

  /** db = -0.5 * raw. */
  function DecodeDb(raw: byte): real
  {
    -0.5 * raw as real
  }

  /** On the half-dB grid the floating-point encoding is the step encoding. */
  lemma EncodeDbOnGrid(h: int)
    ensures EncodeDb(h as real / 2.0) == EncodeGain(h)
  {
    var db := h as real / 2.0;
    var c := Clamp(h);
    assert ClampDb(db) == c as real / 2.0;
    assert -2.0 * ClampDb(db) == (-c) as real;
    assert ((-c) as real).Floor == -c;
  }

  /** Any gain reads back within a quarter of a dB of its clamped value. */
  lemma EncodeDbRoundTrip(db: real)
    ensures -0.25 <= DecodeDb(EncodeDb(db)) - ClampDb(db) <= 0.25
  {
  }

  /** Worked values: -200.0 clamps to raw 254, -126.9 rounds to 254, -20.0 is raw 40 and back. */
  lemma EncodeDbExamples()
    ensures EncodeDb(-200.0) == 254 && EncodeDb(-126.9) == 254
    ensures EncodeDb(0.0) == 0 && EncodeDb(-20.0) == 40 && DecodeDb(40) == -20.0
    ensures Payload(SetGain(EncodeDb(-200.0))) == [0x03, 0x42, 254, Checksum([0x03, 0x42, 254])]
  {
    assert (253.8).Floor == 253;
  }

  /** MUTE_THRESHOLD: a decoded gain is at or below -126.9 dB exactly when its raw byte is 254 or 255. */
  const MuteThreshold: real := -126.9

  lemma MuteThresholdInSteps(raw: byte)
    ensures DecodeDb(raw) <= MuteThreshold <==> DecodeGain(raw) <= MuteFloor
  {
  }
}
