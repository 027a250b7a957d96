/** The binary framing between the app and the LIN34R focus device.
    Frames are told apart by their first byte: 0xAA for a command sent to the
    device, 0xBB for an event, 0xCC for a full state report and 0xDD for a
    voice event. Multi-byte fields are little-endian. */
module DeviceProtocol {
  import opened Wrappers
  import JsText

  /** A value of a `Uint8Array` cell or of `DataView.getUint8`. */
  type Byte = b: int | 0 <= b < 256

  const CommandStart: Byte := 0xAA
  const EventStart: Byte := 0xBB
  const StateStart: Byte := 0xCC
  const VoiceStart: Byte := 0xDD

  // ---------------------------------------------------------------
  // Enumerations
  // ---------------------------------------------------------------

  /** Commands from the app to the device. */
  datatype Command =
    | StartFocus | EndSession | LockPhone | UnlockPhone | SyncState
    | SetDuration | PauseSession | ResumeSession | Reset | AckEvent
  {
    function Code(): (b: Byte)
      ensures 0x01 <= b <= 0x0A
    {
      match this
      case StartFocus => 0x01
      case EndSession => 0x02
      case LockPhone => 0x03
      case UnlockPhone => 0x04
      case SyncState => 0x05
      case SetDuration => 0x06
      case PauseSession => 0x07
      case ResumeSession => 0x08
      case Reset => 0x09
      case AckEvent => 0x0A
    }
  }

  /** The command a code stands for, if any. */
  function CommandOf(b: int): (r: Option<Command>)
    ensures r.Some? ==> r.value.Code() == b
    ensures r.None? ==> forall c: Command :: c.Code() != b
  {
    if b == 0x01 then Some(StartFocus)
    else if b == 0x02 then Some(EndSession)
    else if b == 0x03 then Some(LockPhone)
    else if b == 0x04 then Some(UnlockPhone)
    else if b == 0x05 then Some(SyncState)
    else if b == 0x06 then Some(SetDuration)
    else if b == 0x07 then Some(PauseSession)
    else if b == 0x08 then Some(ResumeSession)
    else if b == 0x09 then Some(Reset)
    else if b == 0x0A then Some(AckEvent)
    else None
  }

  // Event codes (device -> app). A decoded event byte is not checked
  // against this list, so events are kept as raw bytes.
  const EvDialRotated: Byte := 0x10
  const EvPhonePlaced: Byte := 0x11
  const EvPhoneRemoved: Byte := 0x12
  const EvLockEngaged: Byte := 0x13
  const EvLockReleased: Byte := 0x14
  const EvButtonPressed: Byte := 0x15
  const EvTimerComplete: Byte := 0x16
  const EvSessionInterrupted: Byte := 0x17
  const EvBatteryChanged: Byte := 0x18
  const EvError: Byte := 0xFF

  // Voice event codes.
  const VoiceRecordStart: Byte := 0x10
  const VoiceRecordStop: Byte := 0x11
  const VoiceToggleOn: Byte := 0x12
  const VoiceToggleOff: Byte := 0x13

  // Timer states.
  const TimerIdle: Byte := 0x00
  const TimerRunning: Byte := 0x01
  const TimerPaused: Byte := 0x02
  const TimerCompleted: Byte := 0x03

  // Lock states.
  const LockUnlocked: Byte := 0x00
  const LockLocked: Byte := 0x01
  const LockLocking: Byte := 0x02
  const LockUnlocking: Byte := 0x03
  const LockError: Byte := 0xFF

  // Phone presence.
  const PhoneAbsent: Byte := 0x00
  const PhonePresent: Byte := 0x01

  // ---------------------------------------------------------------
  // Little-endian fields
  // ---------------------------------------------------------------

  /** `DataView.getUint16(off, true)`. */
  function U16(data: seq<Byte>, off: nat): (v: nat)
    requires off + 2 <= |data|
    ensures v < 0x1_0000
  {
    data[off] as int + 256 * data[off + 1] as int
  }

  /** `DataView.getUint32(off, true)`. */
  function U32(data: seq<Byte>, off: nat): (v: nat)
    requires off + 4 <= |data|
    ensures v < 0x1_0000_0000
  {
    U16(data, off) + 0x1_0000 * U16(data, off + 2)
  }

  /** `[v & 0xFF, (v >> 8) & 0xFF]`: for every integer `v` these are
      `v mod 256` and `floor(v / 256) mod 256`, because `ToInt32` only removes
      multiples of 2^32. */
  function LE16(v: int): (r: seq<Byte>)
    ensures |r| == 2
  {
    [v % 256, (v / 256) % 256]
  }

  /** The four bytes a little-endian u32 field of value `v` is sent as. */
  function LE32(v: int): (r: seq<Byte>)
    ensures |r| == 4
  {
    LE16(v) + LE16(v / 0x1_0000)
  }

  /** The two bytes of any integer read back as that integer modulo 2^16. */
  lemma U16OfLE16(v: int)
    ensures U16(LE16(v), 0) == v % 0x1_0000
  {
    var lo, q := v % 256, v / 256;
    assert v == 256 * q + lo;
    var hi, q2 := q % 256, q / 256;
    assert q == 256 * q2 + hi;
    assert v == 0x1_0000 * q2 + (256 * hi + lo);
    assert 0 <= 256 * hi + lo < 0x1_0000;
  }

  lemma U32OfLE32(v: int)
    requires 0 <= v < 0x1_0000_0000
    ensures U32(LE32(v), 0) == v
  {
    var f := LE32(v);
    U16OfLE16(v);
    U16OfLE16(v / 0x1_0000);
    assert f[..2] == LE16(v) && f[2..] == LE16(v / 0x1_0000);
    assert U16(f, 0) == U16(LE16(v), 0);
    assert U16(f, 2) == U16(LE16(v / 0x1_0000), 0);
  }

  // ---------------------------------------------------------------
  // Command frames (app -> device)
  // ---------------------------------------------------------------

  /** What a `Uint8Array` keeps of the numbers written into it. */
  function Stored(payload: seq<int>): (r: seq<Byte>)
    ensures |r| == |payload|
    ensures forall i :: 0 <= i < |payload| ==> r[i] == payload[i] % 256
  {
    seq(|payload|, i requires 0 <= i < |payload| => payload[i] % 256)
  }

  /** A command frame: start byte, command, sequence stamp, payload. */
  function CommandFrame(command: Command, sequence: Byte, payload: seq<int>): seq<Byte> {
    [CommandStart, command.Code(), sequence] + Stored(payload)
  }

  datatype CommandPacket = CommandPacket(command: Command, payload: seq<Byte>, sequence: Byte)

  /** How the device reads a command frame back. */
  function ParseCommandFrame(frame: seq<Byte>): Option<CommandPacket> {
    if |frame| < 3 || frame[0] != CommandStart then None
    else match CommandOf(frame[1])
      case None => None
      case Some(c) => Some(CommandPacket(c, frame[3..], frame[2]))
  }

  /** A command frame is `3 + |payload|` bytes and reads back as the command,
      the stamp and the payload as the `Uint8Array` stored it. */
  lemma CommandFrameRoundTrip(command: Command, sequence: Byte, payload: seq<int>)
    ensures |CommandFrame(command, sequence, payload)| == 3 + |payload|
    ensures ParseCommandFrame(CommandFrame(command, sequence, payload))
         == Some(CommandPacket(command, Stored(payload), sequence))
  {
    var f := CommandFrame(command, sequence, payload);
    assert f[3..] == Stored(payload);
  }

  /** The two-byte duration payload of START_FOCUS and SET_DURATION. */
  function DurationPayload(durationMinutes: int): seq<int> {
    LE16(durationMinutes)
  }

  /** Bytes 3-4 of a duration frame reassemble to the duration modulo 2^16,
      hence to the duration itself for 0 <= d < 65536. */
  lemma DurationFrame(command: Command, sequence: Byte, d: int)
    ensures |CommandFrame(command, sequence, DurationPayload(d))| == 5
    ensures U16(CommandFrame(command, sequence, DurationPayload(d)), 3) == d % 0x1_0000
    ensures 0 <= d < 0x1_0000 ==> U16(CommandFrame(command, sequence, DurationPayload(d)), 3) == d
  {
    var f := CommandFrame(command, sequence, DurationPayload(d));
    assert f[3..] == LE16(d);
    U16OfLE16(d);
  }

  /** Holds the module-wide command sequence counter of the source. */
  class CommandEncoder {
    var commandSequence: nat

    constructor ()
      ensures commandSequence == 0
    {
      commandSequence := 0;
    }

    /** Stamps the counter's low byte, advances the counter by one and
        builds the frame byte by byte. */
    method EncodeCommand(command: Command, payload: seq<int>) returns (packet: seq<Byte>)
      modifies this
      ensures commandSequence == old(commandSequence) + 1
      ensures packet == CommandFrame(command, old(commandSequence) % 256, payload)
    {
      var sequence := commandSequence % 256;
      commandSequence := commandSequence + 1;
      var buffer := new Byte[3 + |payload|];
      buffer[0] := CommandStart;
      buffer[1] := command.Code();
      buffer[2] := sequence;
      for i := 0 to |payload|
        invariant commandSequence == old(commandSequence) + 1
        invariant buffer[..3] == [CommandStart, command.Code(), sequence]
        invariant forall k :: 0 <= k < i ==> buffer[3 + k] == payload[k] % 256
      {
        buffer[3 + i] := payload[i] % 256;
      }
      packet := buffer[..];
      assert packet[..3] == [CommandStart, command.Code(), sequence];
      assert packet[3..] == Stored(payload);
      assert packet == packet[..3] + packet[3..];
    }

    method EncodeStartFocus(durationMinutes: int) returns (packet: seq<Byte>)
      modifies this
      ensures commandSequence == old(commandSequence) + 1
      ensures packet == CommandFrame(StartFocus, old(commandSequence) % 256, DurationPayload(durationMinutes))
    {
      packet := EncodeCommand(StartFocus, DurationPayload(durationMinutes));
    }

    method EncodeSetDuration(durationMinutes: int) returns (packet: seq<Byte>)
      modifies this
      ensures commandSequence == old(commandSequence) + 1
      ensures packet == CommandFrame(SetDuration, old(commandSequence) % 256, DurationPayload(durationMinutes))
    {
      packet := EncodeCommand(SetDuration, DurationPayload(durationMinutes));
    }
  }

  /** The stamp the `k`-th encode after counter value `c0` puts on its frame. */
  function Stamp(c0: nat, k: nat): Byte {
    (c0 + k) % 256
  }

  /** Within any 256 consecutive encodes, the stamps are pairwise distinct,
      and they then repeat: a fresh counter stamps 0, 1, ..., 255, 0, ... */
  lemma StampsCycle(c0: nat, i: nat, j: nat)
    ensures Stamp(0, i) == i % 256
    ensures Stamp(c0, i + 256) == Stamp(c0, i)
    ensures i < j < i + 256 ==> Stamp(c0, i) != Stamp(c0, j)
  {
    var x, y := c0 + i, c0 + j;
    if i < j < i + 256 {
      ModDistinct(x, y);
    }
    assert x + 256 == 256 * (x / 256 + 1) + x % 256;
  }

  lemma ModDistinct(x: int, y: int)
    requires x < y < x + 256
    ensures x % 256 != y % 256
  {
    var qx, qy := x / 256, y / 256;
    assert x == 256 * qx + x % 256;
    assert y == 256 * qy + y % 256;
    assert qx <= qy <= qx + 1;
  }

  // ---------------------------------------------------------------
  // Decoding (device -> app)
  // ---------------------------------------------------------------

  /** Why a frame was rejected: a thrown `Error` with its message, or the
      `RangeError` a `DataView` read past the end throws. */
  datatype DecodeError = Error(message: string) | RangeError

  datatype EventPacket = EventPacket(event: Byte, payload: seq<Byte>, timestamp: int, sequence: Byte)

  /** What `decodeEvent` returns or throws, with `Date.now()` as `now`. */
  function EventFromFrame(data: seq<Byte>, now: int): (r: Result<EventPacket, DecodeError>)
    ensures r.Success? <==> |data| >= 4 && data[0] == EventStart && 4 + data[3] <= |data|
    ensures |data| < 4 ==> r == Failure(Error("Event packet too short"))
    ensures |data| >= 4 && data[0] != EventStart
            ==> r == Failure(Error("Invalid event start byte: " + JsText.NatToString(data[0])))
    ensures |data| >= 4 && data[0] == EventStart && 4 + data[3] > |data| ==> r == Failure(RangeError)
  {
    if |data| < 4 then Failure(Error("Event packet too short"))
    else if data[0] != EventStart then
      Failure(Error("Invalid event start byte: " + JsText.NatToString(data[0])))
    else if 4 + data[3] > |data| then Failure(RangeError)
    else
      var payloadLength: int := data[3];
      var timestamp := if |data| >= 4 + payloadLength + 4 then U32(data, 4 + payloadLength) else now;
      Success(EventPacket(data[1], data[4..4 + payloadLength], timestamp, data[2]))
  }

  /** `decodeEvent`: checks the header, then copies the payload byte by byte;
      a read past the end of the frame throws. */
  method DecodeEvent(data: seq<Byte>, now: int) returns (r: Result<EventPacket, DecodeError>)
    ensures r == EventFromFrame(data, now)
  {
    if |data| < 4 {
      return Failure(Error("Event packet too short"));
    }
    var startByte := data[0];
    if startByte != EventStart {
      return Failure(Error("Invalid event start byte: " + JsText.NatToString(startByte)));
    }
    var event, sequence := data[1], data[2];
    var payloadLength: int := data[3];
    var payload := new Byte[payloadLength];
    var i := 0;
    while i < payloadLength
      invariant 0 <= i <= payloadLength && 4 + i <= |data|
      invariant payload[..i] == data[4..4 + i]
    {
      if 4 + i >= |data| {
        return Failure(RangeError);
      }
      payload[i] := data[4 + i];
      i := i + 1;
    }
    var timestamp := now;
    if |data| >= 4 + payloadLength + 4 {
      timestamp := U32(data, 4 + payloadLength);
    }
    assert payload[..] == payload[..i];
    r := Success(EventPacket(event, payload[..], timestamp, sequence));
  }

  /** The frame a device sends for an event, with or without a timestamp. */
  function EventFrame(event: Byte, sequence: Byte, payload: seq<Byte>, timestamp: Option<int>): seq<Byte>
    requires |payload| < 256
  {
    [EventStart, event, sequence, |payload|] + payload
      + (match timestamp case Some(t) => LE32(t) case None => [])
  }

  /** Decoding inverts the device's framing: the event, stamp and payload come
      back, and so does the timestamp when one was sent, else `now`. */
  lemma EventRoundTrip(event: Byte, sequence: Byte, payload: seq<Byte>, timestamp: Option<int>, now: int)
    requires |payload| < 256
    requires timestamp.Some? ==> 0 <= timestamp.value < 0x1_0000_0000
    ensures EventFromFrame(EventFrame(event, sequence, payload, timestamp), now)
         == Success(EventPacket(event, payload, timestamp.GetOr(now), sequence))
  {
    var f := EventFrame(event, sequence, payload, timestamp);
    var n := |payload|;
    assert f[4..4 + n] == payload;
    if timestamp.Some? {
      var t := timestamp.value;
      assert f[4 + n..] == LE32(t);
      U32OfLE32(t);
      assert U32(f, 4 + n) == U32(f[4 + n..], 0);
    }
  }

  /** The signed dial delta of a DIAL_ROTATED payload. */
  function DialDelta(payload: seq<Byte>): (delta: int)
    ensures |payload| < 2 ==> delta == 0
    ensures -0x8000 <= delta < 0x8000
  {
    if |payload| < 2 then 0
    else
      // payload[0] | (payload[1] << 8): the two bytes do not overlap
      var raw: int := payload[0] as int + payload[1] as int * 256;
      if raw > 32767 then raw - 65536 else raw
  }

  /** The device's two's-complement little-endian encoding of a delta. */
  function DeltaBytes(delta: int): seq<Byte> {
    LE16(delta)
  }

  /** Every delta in [-32768, 32767] survives the trip through two bytes. */
  lemma DialDeltaRoundTrip(delta: int)
    requires -0x8000 <= delta < 0x8000
    ensures DialDelta(DeltaBytes(delta)) == delta
  {
    U16OfLE16(delta);
  }

  /** Conversely, the first two bytes of a payload are the encoding of its delta. */
  lemma DeltaBytesRoundTrip(payload: seq<Byte>)
    requires |payload| >= 2
    ensures DeltaBytes(DialDelta(payload)) == payload[..2]
  {
    var raw: int := payload[0] as int + payload[1] as int * 256;
    var d := DialDelta(payload);
    assert d % 0x1_0000 == raw;
    U16OfLE16(d);
    var b := DeltaBytes(d);
    assert b[0] as int + 256 * b[1] as int == payload[0] as int + 256 * payload[1] as int;
  }

  datatype StatePacket = StatePacket(
    timerState: Byte,
    timerDurationMinutes: nat,
    timerRemainingSeconds: nat,
    lockState: Byte,
    phonePresence: Byte,
    batteryPercent: Byte,
    dialPosition: nat,
    firmwareVersion: string)

  /** `${major}.${minor}.${patch}`. */
  function FirmwareString(major: Byte, minor: Byte, patch: Byte): string {
    JsText.NatToString(major) + "." + JsText.NatToString(minor) + "." + JsText.NatToString(patch)
  }

  /** What `decodeStatePacket` returns or throws. */
  function StateFromFrame(data: seq<Byte>): (r: Result<StatePacket, DecodeError>)
    ensures r.Success? <==> |data| >= 16 && data[0] == StateStart
    ensures |data| < 16 ==> r == Failure(Error("State packet too short"))
    ensures |data| >= 16 && data[0] != StateStart
            ==> r == Failure(Error("Invalid state start byte: " + JsText.NatToString(data[0])))
  {
    if |data| < 16 then Failure(Error("State packet too short"))
    else if data[0] != StateStart then
      Failure(Error("Invalid state start byte: " + JsText.NatToString(data[0])))
    else
      Success(StatePacket(
        data[1], U16(data, 2), U16(data, 4), data[6], data[7], data[8], U16(data, 9),
        FirmwareString(data[11], data[12], data[13])))
  }

  /** A state frame as the device lays it out. Byte 14 and anything after
      byte 15 are not read. */
  function StateFrame(timerState: Byte, duration: nat, remaining: nat, lockState: Byte,
                      phone: Byte, battery: Byte, dial: nat,
                      major: Byte, minor: Byte, patch: Byte, trailer: seq<Byte>): seq<Byte>
    requires duration < 0x1_0000 && remaining < 0x1_0000 && dial < 0x1_0000
    requires |trailer| >= 2
  {
    [StateStart, timerState] + LE16(duration) + LE16(remaining) + [lockState, phone, battery]
      + LE16(dial) + [major, minor, patch] + trailer
  }

  /** Every field of a state frame comes back from its fixed offset; the dial
      position is read as an unsigned 16-bit value. */
  lemma StateRoundTrip(timerState: Byte, duration: nat, remaining: nat, lockState: Byte,
                       phone: Byte, battery: Byte, dial: nat,
                       major: Byte, minor: Byte, patch: Byte, trailer: seq<Byte>)
    requires duration < 0x1_0000 && remaining < 0x1_0000 && dial < 0x1_0000
    requires |trailer| >= 2
    ensures StateFromFrame(StateFrame(timerState, duration, remaining, lockState, phone, battery,
                                      dial, major, minor, patch, trailer))
         == Success(StatePacket(timerState, duration, remaining, lockState, phone, battery, dial,
                                FirmwareString(major, minor, patch)))
  {
    var f := StateFrame(timerState, duration, remaining, lockState, phone, battery,
                        dial, major, minor, patch, trailer);
    U16OfLE16(duration);
    U16OfLE16(remaining);
    U16OfLE16(dial);
    assert f[2..4] == LE16(duration) && f[4..6] == LE16(remaining) && f[9..11] == LE16(dial);
    assert U16(f, 2) == U16(f[2..4], 0);
    assert U16(f, 4) == U16(f[4..6], 0);
    assert U16(f, 9) == U16(f[9..11], 0);
  }

  /** `decodeBatteryLevel`: byte 0; an empty value makes `getUint8(0)` throw. */
  function BatteryFromValue(data: seq<Byte>): (r: Result<Byte, DecodeError>)
    ensures r.Success? <==> |data| >= 1
    ensures r.Success? ==> r.value == data[0]
  {
    if |data| < 1 then Failure(RangeError) else Success(data[0])
  }

  /** `decodeTimerRemaining`: the u16 at offset 0. */
  function RemainingFromValue(data: seq<Byte>): (r: Result<nat, DecodeError>)
    ensures r.Success? <==> |data| >= 2
    ensures r.Success? ==> r.value < 0x1_0000 && r.value % 256 == data[0] && r.value / 256 == data[1]
  {
    if |data| < 2 then Failure(RangeError) else Success(U16(data, 0))
  }

  datatype VoiceEventPacket = VoiceEventPacket(event: Byte, timestamp: int, durationMs: Option<nat>)

  /** Whether a voice event code ends a recording (the codes that carry a duration). */
  predicate EndsRecording(event: Byte) {
    event == VoiceRecordStop || event == VoiceToggleOff
  }

  /** What `decodeVoiceEvent` returns or throws. */
  function VoiceFromFrame(data: seq<Byte>, now: int): (r: Result<VoiceEventPacket, DecodeError>)
    ensures r.Success? <==> |data| >= 2 && data[0] == VoiceStart
    ensures |data| < 2 ==> r == Failure(Error("Voice event packet too short"))
    ensures |data| >= 2 && data[0] != VoiceStart
            ==> r == Failure(Error("Invalid voice event start byte: " + JsText.NatToString(data[0])))
    ensures r.Success? ==> r.value.event == data[1]
    ensures r.Success? ==> (r.value.timestamp == if |data| >= 6 then U32(data, 2) else now)
    ensures r.Success? ==> (r.value.durationMs.Some? <==> |data| >= 10 && EndsRecording(data[1]))
    ensures r.Success? && r.value.durationMs.Some? ==> r.value.durationMs.value == U32(data, 6)
  {
    if |data| < 2 then Failure(Error("Voice event packet too short"))
    else if data[0] != VoiceStart then
      Failure(Error("Invalid voice event start byte: " + JsText.NatToString(data[0])))
    else
      var event := data[1];
      var timestamp := if |data| >= 6 then U32(data, 2) else now;
      var durationMs := if |data| >= 10 && EndsRecording(event) then Some(U32(data, 6)) else None;
      Success(VoiceEventPacket(event, timestamp, durationMs))
  }

  // ---------------------------------------------------------------
  // Names for logging
  // ---------------------------------------------------------------

  /** `Enum[v] || \`UNKNOWN(${v})\``: the name the enum's reverse mapping
      gives `v`, else a placeholder. */
  function EnumName(declared: Option<string>, v: int): (s: string)
    ensures declared.Some? ==> s == declared.value
  {
    match declared
    case Some(name) => name
    case None => "UNKNOWN(" + JsText.IntToString(v) + ")"
  }

  /** A declared name never begins like the placeholder. */
  predicate NotPlaceholder(s: string) {
    |s| < 3 || s[0] != 'U' || s[1] != 'N' || s[2] != 'K'
  }

  /** When declared names are distinct and never look like a placeholder,
      equal names mean equal codes. */
  lemma EnumNameInjective(la: Option<string>, lb: Option<string>, a: int, b: int)
    requires la.Some? ==> NotPlaceholder(la.value)
    requires lb.Some? ==> NotPlaceholder(lb.value)
    requires la.Some? && la == lb ==> a == b
    requires EnumName(la, a) == EnumName(lb, b)
    requires la.None? <==> lb.None?
    ensures a == b
  {
    if la.None? {
      var sa, sb := EnumName(la, a), EnumName(lb, b);
      var ta, tb := JsText.IntToString(a), JsText.IntToString(b);
      assert sa[8..|sa| - 1] == ta;
      assert sb[8..|sb| - 1] == tb;
      JsText.IntToStringInjective(a, b);
    }
  }

  /** A placeholder is never a declared name. */
  lemma PlaceholderIsNotAName(la: Option<string>, lb: Option<string>, a: int, b: int)
    requires la.Some? && lb.None?
    requires NotPlaceholder(la.value)
    ensures EnumName(la, a) != EnumName(lb, b)
  {
    var sb := EnumName(lb, b);
    assert sb[0] == 'U' && sb[1] == 'N' && sb[2] == 'K';
  }

  // The reverse mappings of the enumerations, in code order.
  const CommandNames: seq<string> := [
    "START_FOCUS", "END_SESSION", "LOCK_PHONE", "UNLOCK_PHONE", "SYNC_STATE",
    "SET_DURATION", "PAUSE_SESSION", "RESUME_SESSION", "RESET", "ACK_EVENT"]
  const EventNames: seq<string> := [
    "DIAL_ROTATED", "PHONE_PLACED", "PHONE_REMOVED", "LOCK_ENGAGED", "LOCK_RELEASED",
    "BUTTON_PRESSED", "TIMER_COMPLETE", "SESSION_INTERRUPTED", "BATTERY_CHANGED"]
  const VoiceEventNames: seq<string> := ["VOICE_START", "VOICE_STOP", "VOICE_TOGGLE_ON", "VOICE_TOGGLE_OFF"]
  const TimerStateNames: seq<string> := ["IDLE", "RUNNING", "PAUSED", "COMPLETED"]
  const LockStateNames: seq<string> := ["UNLOCKED", "LOCKED", "LOCKING", "UNLOCKING"]

  /** `Command[v]`: codes 0x01-0x0A. */
  function CommandLabel(v: int): Option<string> {
    if 0x01 <= v <= 0x0A then Some(CommandNames[v - 0x01]) else None
  }

  /** `DeviceEvent[v]`: codes 0x10-0x18 and 0xFF. */
  function EventLabel(v: int): Option<string> {
    if 0x10 <= v <= 0x18 then Some(EventNames[v - 0x10])
    else if v == 0xFF then Some("ERROR")
    else None
  }

  /** `VoiceEvent[v]`: codes 0x10-0x13. */
  function VoiceEventLabel(v: int): Option<string> {
    if 0x10 <= v <= 0x13 then Some(VoiceEventNames[v - 0x10]) else None
  }

  /** `TimerState[v]`: codes 0x00-0x03. */
  function TimerStateLabel(v: int): Option<string> {
    if 0x00 <= v <= 0x03 then Some(TimerStateNames[v]) else None
  }

  /** `LockState[v]`: codes 0x00-0x03 and 0xFF. */
  function LockStateLabel(v: int): Option<string> {
    if 0x00 <= v <= 0x03 then Some(LockStateNames[v])
    else if v == 0xFF then Some("ERROR")
    else None
  }

  function CommandName(command: int): string { EnumName(CommandLabel(command), command) }
  function EventName(event: int): string { EnumName(EventLabel(event), event) }
  function VoiceEventName(event: int): string { EnumName(VoiceEventLabel(event), event) }
  function TimerStateName(state: int): string { EnumName(TimerStateLabel(state), state) }
  function LockStateName(state: int): string { EnumName(LockStateLabel(state), state) }

  /** The declared names of this enumeration are distinct and none looks like a placeholder. */
  lemma CommandLabelFacts(a: int, b: int)
    ensures CommandLabel(a).Some? ==> NotPlaceholder(CommandLabel(a).value)
    ensures CommandLabel(a).Some? && CommandLabel(a) == CommandLabel(b) ==> a == b
  {
  }

  /** Names are a faithful log key: two codes, declared or not, get the same
      command name only if they are the same code. */
  lemma CommandNameInjective(a: int, b: int)
    requires CommandName(a) == CommandName(b)
    ensures a == b
  {
    var la, lb := CommandLabel(a), CommandLabel(b);
    CommandLabelFacts(a, b);
    if la.Some? && lb.None? { PlaceholderIsNotAName(la, lb, a, b); }
    else if la.None? && lb.Some? { PlaceholderIsNotAName(lb, la, b, a); }
    else { EnumNameInjective(la, lb, a, b); }
  }

  /** The declared names of this enumeration are distinct and none looks like a placeholder. */
  lemma EventLabelFacts(a: int, b: int)
    ensures EventLabel(a).Some? ==> NotPlaceholder(EventLabel(a).value)
    ensures EventLabel(a).Some? && EventLabel(a) == EventLabel(b) ==> a == b
  {
  }

  lemma EventNameInjective(a: int, b: int)
    requires EventName(a) == EventName(b)
    ensures a == b
  {
    var la, lb := EventLabel(a), EventLabel(b);
    EventLabelFacts(a, b);
    if la.Some? && lb.None? { PlaceholderIsNotAName(la, lb, a, b); }
    else if la.None? && lb.Some? { PlaceholderIsNotAName(lb, la, b, a); }
    else { EnumNameInjective(la, lb, a, b); }
  }

  /** The declared names of this enumeration are distinct and none looks like a placeholder. */
  lemma VoiceEventLabelFacts(a: int, b: int)
    ensures VoiceEventLabel(a).Some? ==> NotPlaceholder(VoiceEventLabel(a).value)
    ensures VoiceEventLabel(a).Some? && VoiceEventLabel(a) == VoiceEventLabel(b) ==> a == b
  {
  }

  lemma VoiceEventNameInjective(a: int, b: int)
    requires VoiceEventName(a) == VoiceEventName(b)
    ensures a == b
  {
    var la, lb := VoiceEventLabel(a), VoiceEventLabel(b);
    VoiceEventLabelFacts(a, b);
    if la.Some? && lb.None? { PlaceholderIsNotAName(la, lb, a, b); }
    else if la.None? && lb.Some? { PlaceholderIsNotAName(lb, la, b, a); }
    else { EnumNameInjective(la, lb, a, b); }
  }

  /** The declared names of this enumeration are distinct and none looks like a placeholder. */
  lemma TimerStateLabelFacts(a: int, b: int)
    ensures TimerStateLabel(a).Some? ==> NotPlaceholder(TimerStateLabel(a).value)
    ensures TimerStateLabel(a).Some? && TimerStateLabel(a) == TimerStateLabel(b) ==> a == b
  {
  }

  lemma TimerStateNameInjective(a: int, b: int)
    requires TimerStateName(a) == TimerStateName(b)
    ensures a == b
  {
    var la, lb := TimerStateLabel(a), TimerStateLabel(b);
    TimerStateLabelFacts(a, b);
    if la.Some? && lb.None? { PlaceholderIsNotAName(la, lb, a, b); }
    else if la.None? && lb.Some? { PlaceholderIsNotAName(lb, la, b, a); }
    else { EnumNameInjective(la, lb, a, b); }
  }

  /** The declared names of this enumeration are distinct and none looks like a placeholder. */
  lemma LockStateLabelFacts(a: int, b: int)
    ensures LockStateLabel(a).Some? ==> NotPlaceholder(LockStateLabel(a).value)
    ensures LockStateLabel(a).Some? && LockStateLabel(a) == LockStateLabel(b) ==> a == b
  {
  }

  lemma LockStateNameInjective(a: int, b: int)
    requires LockStateName(a) == LockStateName(b)
    ensures a == b
  {
    var la, lb := LockStateLabel(a), LockStateLabel(b);
    LockStateLabelFacts(a, b);
    if la.Some? && lb.None? { PlaceholderIsNotAName(la, lb, a, b); }
    else if la.None? && lb.Some? { PlaceholderIsNotAName(lb, la, b, a); }
    else { EnumNameInjective(la, lb, a, b); }
  }

  /** The declared names come out as the enumerations spell them, and an
      unknown code is shown in decimal. */
  lemma NameExamples()
    ensures CommandName(StartFocus.Code()) == "START_FOCUS" && CommandName(AckEvent.Code()) == "ACK_EVENT"
    ensures EventName(EvError) == "ERROR" && LockStateName(LockError) == "ERROR"
    ensures CommandName(0) == "UNKNOWN(0)" && EventName(-1) == "UNKNOWN(-1)"
  {
  }
}
