/**
 * The serial sound plugin (sound-pico.cpp): the Lua `sound` API on the host
 * computer, which validates its arguments, keeps a record for each of 32
 * channels and writes the driver's command bytes to the serial port.
 *
 * Each command is `command(cmd, ch)` -- the 3-bit command in the top bits,
 * channel - 1 in the low five -- followed by its argument bytes.  A Lua
 * error is raised before anything is written.
 */
module HostSerial {
  import opened Common
  import opened Plugin

  const NumChannels: nat := 32

  /** The driver's own channel count: it ignores commands for the rest. */
  const DriverChannels: nat := 16

  function InitialTable(mode: Interpolation): (r: seq<Channel>)
    ensures |r| == NumChannels
  {
    seq(NumChannels, i => InitialChannel(mode))
  }

  /** The plugin's channel array. */
  type Table = s: seq<Channel> | |s| == NumChannels witness InitialTable(NoInterpolation)

  /** A call that completed, with the bytes it wrote, or one that raised
      an error (writing nothing), with the table as it left it. */
  datatype Outcome = Done(channels: Table, out: seq<byte>) | Failed(channels: Table, error: Error)

  /** The `command` macro. */
  function Command(cmd: nat, ch: int): (r: byte)
    requires cmd < 8 && ValidChannel(ch, NumChannels)
    ensures r / 32 == cmd && r % 32 == ch - 1
  {
    cmd * 32 + (ch - 1)
  }

  /** Distinct commands or channels give distinct command bytes: channels
      1..32 map one-to-one onto the 5-bit field. */
  lemma CommandInjective(cmd1: nat, ch1: int, cmd2: nat, ch2: int)
    requires cmd1 < 8 && ValidChannel(ch1, NumChannels)
    requires cmd2 < 8 && ValidChannel(ch2, NumChannels)
    ensures Command(cmd1, ch1) == Command(cmd2, ch2) <==> cmd1 == cmd2 && ch1 == ch2
  {
  }

  /** The enum value of a wave type, as written after a wave-type command. */
  function Ordinal(w: WaveType): (r: byte)
    ensures r < 9
    ensures r == 5 <==> w == Square
    ensures r == 7 <==> w == Custom
  {
    match w
    case NoWave => 0
    case Sine => 1
    case Triangle => 2
    case Sawtooth => 3
    case RSawtooth => 4
    case Square => 5
    case Noise => 6
    case Custom => 7
    case PitchedNoise => 8
  }

  lemma OrdinalInjective(v: WaveType, w: WaveType)
    ensures Ordinal(v) == Ordinal(w) <==> v == w
  {
  }

  /** A value in [0, 1] scaled to 0..255 and truncated, as `fputc` of a
      `double` or `float` product does. */
  function Scale255(x: real): (r: byte)
    requires 0.0 <= x <= 1.0
    ensures r as real <= x * 255.0 < r as real + 1.0
  {
    (x * 255.0).Floor
  }

  /** Scaling keeps the order of values, and the ends map to 0 and 255. */
  lemma Scale255Monotone(x: real, y: real)
    requires 0.0 <= x <= y <= 1.0
    ensures Scale255(x) <= Scale255(y)
    ensures Scale255(0.0) == 0 && Scale255(1.0) == 255
  {
  }

  /** Little-endian bytes of a 16-bit value, as `fwrite(&u16, 2, 1, f)`
      writes it on the host. */
  function Bytes16(f: int): (r: seq<byte>)
    requires 0 <= f < 0x1_0000
    ensures |r| == 2 && LittleEndian16(r[0], r[1]) == f
  {
    [f % 256, f / 256]
  }

  /** Little-endian bytes of a 32-bit pattern. */
  function Bytes32(x: int): (r: seq<byte>)
    requires 0 <= x < 0x1_0000_0000
    ensures |r| == 4 && LittleEndian32(r) == x
  {
    var q1 := x / 0x100;
    var q2 := q1 / 0x100;
    var q3 := q2 / 0x100;
    [x % 0x100, q1 % 0x100, q2 % 0x100, q3]
  }

  /** The bytes `setWaveType` writes for the record it just stored:
      square sends its duty, custom sends nothing, the rest their enum value. */
  function WaveBytes(ch: int, c: Channel): (r: seq<byte>)
    requires ValidChannel(ch, NumChannels)
    requires c.wave == Square ==> 0.0 <= c.duty <= 1.0
    ensures c.wave == Custom <==> r == []
    ensures r == [] || |r| >= 2
    ensures r != [] ==> r[0] == Command(0, ch) && r[1] == Ordinal(c.wave)
    ensures |r| == 3 <==> c.wave == Square
    ensures |r| == 3 ==> r[2] as real <= c.duty * 255.0 < r[2] as real + 1.0
  {
    if c.wave == Square then [Command(0, ch), Ordinal(Square), Scale255(c.duty)]
    else if c.wave == Custom then []
    else [Command(0, ch), Ordinal(c.wave)]
  }

  /** The outcome of an operation on the record of channel `ch`. */
  function Commit(t: Table, ch: int, u: Update, out: seq<byte>): (r: Outcome)
    requires ValidChannel(ch, NumChannels)
    ensures r.channels == t[ch - 1 := u.channel]
    ensures u.Raised? <==> r.Failed?
    ensures r.Failed? ==> r.error == u.error
    ensures r.Done? ==> r.out == out
  {
    match u
    case Updated(c) => Done(t[ch - 1 := c], out)
    case Raised(c, e) => Failed(t[ch - 1 := c], e)
  }

  // ---------------------------------------------------------------------
  // The setters.

  /** `sound.setWaveType(ch, name [, duty | wavetable])`. */
  function SetWaveType(t: Table, ch: int, name: string, extra: Arg): (r: Outcome)
    ensures !ValidChannel(ch, NumChannels) ==> r == Failed(t, ChannelOutOfRange)
    ensures ValidChannel(ch, NumChannels) ==>
      && r.channels == t[ch - 1 := SetWave(t[ch - 1], name, extra).channel]
      && (r.Done? <==> SetWave(t[ch - 1], name, extra).Updated?)
    ensures r.Failed? ==> r.channels == t
    ensures r.Done? ==> r.out == WaveBytes(ch, r.channels[ch - 1])
  {
    if !ValidChannel(ch, NumChannels) then Failed(t, ChannelOutOfRange)
    else
      var u := SetWave(t[ch - 1], name, extra);
      assert u.Raised? ==> t[ch - 1 := u.channel] == t;
      Commit(t, ch, u, if u.Updated? then WaveBytes(ch, u.channel) else [])
  }

  /** `sound.setWaveType` as written: an error after the record switched to
      square leaves it square, although nothing is written. */
  function SetWaveTypeAsWritten(t: Table, ch: int, name: string, extra: Arg): (r: Outcome)
    ensures !ValidChannel(ch, NumChannels) ==> r == Failed(t, ChannelOutOfRange)
    ensures ValidChannel(ch, NumChannels) ==>
      && r.channels == t[ch - 1 := SetWaveAsWritten(t[ch - 1], name, extra).channel]
      && (r.Done? <==> SetWaveAsWritten(t[ch - 1], name, extra).Updated?)
    ensures r.Failed? ==>
      r.channels == t || (ValidChannel(ch, NumChannels) && r.channels == t[ch - 1 := t[ch - 1].(wave := Square)])
    ensures r.Done? ==> r.out == WaveBytes(ch, r.channels[ch - 1])
  {
    if !ValidChannel(ch, NumChannels) then Failed(t, ChannelOutOfRange)
    else
      var u := SetWaveAsWritten(t[ch - 1], name, extra);
      assert u.Raised? && u.channel == t[ch - 1] ==> t[ch - 1 := u.channel] == t;
      Commit(t, ch, u, if u.Updated? then WaveBytes(ch, u.channel) else [])
  }

  /** `sound.setFrequency(ch, hz)`: the value is stored and written as two
      little-endian bytes after `command(1, ch)`, whether or not it changed. */
  function SetFrequency(t: Table, ch: int, f: int): (r: Outcome)
    ensures !ValidChannel(ch, NumChannels) ==> r == Failed(t, ChannelOutOfRange)
    ensures ValidChannel(ch, NumChannels) && !(0 <= f < 0x1_0000) ==> r == Failed(t, FrequencyOutOfRange)
    ensures r.Done? <==> ValidChannel(ch, NumChannels) && 0 <= f < 0x1_0000
    ensures r.Done? ==>
      && r.channels == t[ch - 1 := t[ch - 1].(frequency := f)]
      && |r.out| == 3 && r.out[0] == Command(1, ch)
      && LittleEndian16(r.out[1], r.out[2]) == f
  {
    if !ValidChannel(ch, NumChannels) then Failed(t, ChannelOutOfRange)
    else if f < 0 || f > 65535 then Failed(t, FrequencyOutOfRange)
    else Done(t[ch - 1 := t[ch - 1].(frequency := f)], [Command(1, ch)] + Bytes16(f))
  }

  /** `sound.setVolume(ch, v)` as written: `command(2, ch)` and the volume
      scaled to 0..255, for every channel 1..32. */
  function SetVolumeAsWritten(t: Table, ch: int, amp: real): (r: Outcome)
    ensures r.Done? <==> ValidChannel(ch, NumChannels) && 0.0 <= amp <= 1.0
    ensures r.Done? ==> r.out == [Command(2, ch), Scale255(amp)]
  {
    if !ValidChannel(ch, NumChannels) then Failed(t, ChannelOutOfRange)
    else if amp < 0.0 || amp > 1.0 then Failed(t, VolumeOutOfRange)
    else Done(t[ch - 1 := t[ch - 1].(amplitude := amp)], [Command(2, ch), Scale255(amp)])
  }

  /** `command(2, 29)` is the byte the driver takes as its one-byte dump
      request, so the volume byte after it is read as a command. */
  lemma VolumeOnChannel29IsDumpRequest(t: Table, amp: real)
    requires 0.0 <= amp <= 1.0
    ensures SetVolumeAsWritten(t, 29, amp).out[0] == 0x5C
  {
  }

  /**
   * `sound.setVolume(ch, v)` writing only for the channels the driver has:
   * it ignores channels 17..32 anyway, and for channel 29 the command byte
   * would be its dump request.  The record is updated for every channel.
   */
  function SetVolume(t: Table, ch: int, amp: real): (r: Outcome)
    ensures !ValidChannel(ch, NumChannels) ==> r == Failed(t, ChannelOutOfRange)
    ensures ValidChannel(ch, NumChannels) && !(0.0 <= amp <= 1.0) ==> r == Failed(t, VolumeOutOfRange)
    ensures r.Done? <==> ValidChannel(ch, NumChannels) && 0.0 <= amp <= 1.0
    ensures r.Done? ==>
      && r.channels == t[ch - 1 := t[ch - 1].(amplitude := amp)]
      && (ch <= DriverChannels ==> r.out == [Command(2, ch), Scale255(amp)])
      && (ch > DriverChannels ==> r.out == [])
    ensures r.Done? && ch <= DriverChannels ==> r == SetVolumeAsWritten(t, ch, amp)
  {
    if !ValidChannel(ch, NumChannels) then Failed(t, ChannelOutOfRange)
    else if amp < 0.0 || amp > 1.0 then Failed(t, VolumeOutOfRange)
    else
      var out := if ch <= DriverChannels then [Command(2, ch), Scale255(amp)] else [];
      Done(t[ch - 1 := t[ch - 1].(amplitude := amp)], out)
  }

  /** `sound.setPan(ch, p)`: stored, but the write to the driver is
      disabled, so nothing is sent. */
  function SetPan(t: Table, ch: int, pan: real): (r: Outcome)
    ensures !ValidChannel(ch, NumChannels) ==> r == Failed(t, ChannelOutOfRange)
    ensures r.Done? <==> ValidChannel(ch, NumChannels) && -1.0 <= pan <= 1.0
    ensures r.Done? ==> r.channels == t[ch - 1 := t[ch - 1].(pan := pan)] && r.out == []
    ensures r.Failed? ==> r.channels == t
  {
    if !ValidChannel(ch, NumChannels) then Failed(t, ChannelOutOfRange)
    else if pan < -1.0 || pan > 1.0 then Failed(t, PanOutOfRange)
    else Done(t[ch - 1 := t[ch - 1].(pan := pan)], [])
  }

  /** `sound.setInterpolation(ch, mode)`: `command(4, ch)`, then 1 for
      linear and 0 for none. */
  function SetInterpolation(t: Table, ch: int, arg: Arg): (r: Outcome)
    ensures !ValidChannel(ch, NumChannels) ==> r == Failed(t, ChannelOutOfRange)
    ensures ValidChannel(ch, NumChannels) ==>
      && r.channels == t[ch - 1 := Plugin.SetInterpolation(t[ch - 1], arg).channel]
      && (r.Done? <==> Plugin.SetInterpolation(t[ch - 1], arg).Updated?)
    ensures r.Failed? ==> r.channels == t
    ensures r.Done? ==>
      r.out == [Command(4, ch), if r.channels[ch - 1].interpolation == Linear then 1 else 0]
  {
    if !ValidChannel(ch, NumChannels) then Failed(t, ChannelOutOfRange)
    else
      var u := Plugin.SetInterpolation(t[ch - 1], arg);
      assert u.Raised? ==> t[ch - 1 := u.channel] == t;
      Commit(t, ch, u, [Command(4, ch), if u.channel.interpolation == Linear then 1 else 0])
  }

  /** `sound.setInterpolation` as written: only the strings "none" and
      "linear" are taken. */
  function SetInterpolationAsWritten(t: Table, ch: int, arg: Arg): (r: Outcome)
    ensures !ValidChannel(ch, NumChannels) ==> r == Failed(t, ChannelOutOfRange)
    ensures r.Done? <==> ValidChannel(ch, NumChannels) && arg.Text? && (arg.s == "none" || arg.s == "linear")
    ensures r.Failed? ==> r.channels == t
    ensures r.Done? ==>
      && r.channels == t[ch - 1 := t[ch - 1].(interpolation := if arg.s == "linear" then Linear else NoInterpolation)]
      && r.out == [Command(4, ch), if arg.s == "linear" then 1 else 0]
  {
    if !ValidChannel(ch, NumChannels) then Failed(t, ChannelOutOfRange)
    else
      var u := Plugin.SetInterpolationAsWritten(t[ch - 1], arg);
      assert u.Raised? ==> t[ch - 1 := u.channel] == t;
      Commit(t, ch, u, [Command(4, ch), if u.channel.interpolation == Linear then 1 else 0])
  }

  /** `sound.fadeOut(ch, seconds)`: `command(5, ch)` and the four bytes of
      the time as a `float`, whose bit pattern is `bits`.  No record changes. */
  function FadeOut(t: Table, ch: int, bits: int): (r: Outcome)
    requires 0 <= bits < 0x1_0000_0000
    ensures !ValidChannel(ch, NumChannels) ==> r == Failed(t, ChannelOutOfRange)
    ensures r.channels == t
    ensures r.Done? ==> |r.out| == 5 && r.out[0] == Command(5, ch) && LittleEndian32(r.out[1..]) == bits
  {
    if !ValidChannel(ch, NumChannels) then Failed(t, ChannelOutOfRange)
    else Done(t, [Command(5, ch)] + Bytes32(bits))
  }

  /** What a timer writes every 50 ms: five `command(7, 1)` bytes. */
  const KeepAlive: seq<byte> := [0xE0, 0xE0, 0xE0, 0xE0, 0xE0]

  lemma KeepAliveIsClassSeven()
    ensures forall k :: 0 <= k < |KeepAlive| ==> KeepAlive[k] == Command(7, 1)
  {
    assert Command(7, 1) == 0xE0;
  }

  // ---------------------------------------------------------------------
  // The getters, and what they read back.

  function GetWaveType(t: Table, ch: int): (r: Result<WaveReport, Error>)
    ensures r.Err? <==> !ValidChannel(ch, NumChannels)
    ensures r.Ok? ==> r.value == GetWave(t[ch - 1])
  {
    if !ValidChannel(ch, NumChannels) then Err(ChannelOutOfRange) else Ok(GetWave(t[ch - 1]))
  }

  function GetFrequency(t: Table, ch: int): (r: Result<int, Error>)
    ensures r.Err? <==> !ValidChannel(ch, NumChannels)
    ensures r.Ok? ==> r.value == t[ch - 1].frequency
  {
    if !ValidChannel(ch, NumChannels) then Err(ChannelOutOfRange) else Ok(t[ch - 1].frequency)
  }

  function GetVolume(t: Table, ch: int): (r: Result<real, Error>)
    ensures r.Err? <==> !ValidChannel(ch, NumChannels)
    ensures r.Ok? ==> r.value == t[ch - 1].amplitude
  {
    if !ValidChannel(ch, NumChannels) then Err(ChannelOutOfRange) else Ok(t[ch - 1].amplitude)
  }

  function GetPan(t: Table, ch: int): (r: Result<real, Error>)
    ensures r.Err? <==> !ValidChannel(ch, NumChannels)
    ensures r.Ok? ==> r.value == t[ch - 1].pan
  {
    if !ValidChannel(ch, NumChannels) then Err(ChannelOutOfRange) else Ok(t[ch - 1].pan)
  }

  function GetInterpolation(t: Table, ch: int): (r: Result<string, Error>)
    ensures r.Err? <==> !ValidChannel(ch, NumChannels)
    ensures r.Ok? ==> r.value == Plugin.GetInterpolation(t[ch - 1])
  {
    if !ValidChannel(ch, NumChannels) then Err(ChannelOutOfRange) else Ok(Plugin.GetInterpolation(t[ch - 1]))
  }

  /** `sound.getInterpolation` as written: whatever the mode, "unknown". */
  function GetInterpolationAsWritten(t: Table, ch: int): (r: Result<string, Error>)
    ensures r.Err? <==> !ValidChannel(ch, NumChannels)
    ensures r.Ok? ==> r.value == "unknown"
  {
    if !ValidChannel(ch, NumChannels) then Err(ChannelOutOfRange) else Ok(Plugin.GetInterpolationAsWritten(t[ch - 1]))
  }

  /** After a successful `setInterpolation`, the corrected getter names the
      mode set; the getter as written answers "unknown". */
  lemma InterpolationReadsBack(t: Table, ch: int, arg: Arg)
    requires SetInterpolation(t, ch, arg).Done?
    ensures var r := SetInterpolation(t, ch, arg);
      && GetInterpolationAsWritten(r.channels, ch) == Ok("unknown")
      && (arg.Text? ==> GetInterpolation(r.channels, ch) == Ok(arg.s))
      && (arg.Number? ==> GetInterpolation(r.channels, ch) == Ok(if Truncate(arg.x) == 1 then "none" else "linear"))
  {
    InterpolationRoundTrip(t[ch - 1], arg);
  }

  /** Each setter's value reads back through its getter, on its own
      channel only. */
  lemma SettersReadBack(t: Table, ch: int, f: int, amp: real, pan: real, other: int)
    requires ValidChannel(ch, NumChannels) && ValidChannel(other, NumChannels) && other != ch
    ensures SetFrequency(t, ch, f).Done? ==>
      GetFrequency(SetFrequency(t, ch, f).channels, ch) == Ok(f)
      && GetFrequency(SetFrequency(t, ch, f).channels, other) == GetFrequency(t, other)
    ensures SetVolume(t, ch, amp).Done? ==>
      GetVolume(SetVolume(t, ch, amp).channels, ch) == Ok(amp)
      && GetVolume(SetVolume(t, ch, amp).channels, other) == GetVolume(t, other)
    ensures SetPan(t, ch, pan).Done? ==>
      GetPan(SetPan(t, ch, pan).channels, ch) == Ok(pan)
      && GetPan(SetPan(t, ch, pan).channels, other) == GetPan(t, other)
  {
  }

  /** `getWaveType` after a successful `setWaveType` names the type set,
      with its duty or wavetable. */
  lemma WaveTypeReadsBack(t: Table, ch: int, name: string, extra: Arg)
    requires SetWaveType(t, ch, name, extra).Done?
    ensures var report := GetWaveType(SetWaveType(t, ch, name, extra).channels, ch);
      && report.Ok?
      && WaveNamed(report.value.name) == WaveNamed(ToLower(name))
      && (report.value.duty.Some? ==> report.value.duty.value == if extra.Nil? then 0.5 else ToNumber(extra))
      && (report.value.points.Some? ==> report.value.points == Some(ReadWavetable(extra).value))
  {
    WaveRoundTrip(t[ch - 1], name, extra);
  }

  // ---------------------------------------------------------------------
  // Sessions.

  /** The bit pattern of a `float`. */
  type FloatBits = x: int | 0 <= x < 0x1_0000_0000

  /** One call of the Lua API that writes to the line, or one firing of
      the keep-alive timer. */
  datatype Call =
    | WaveTypeCall(ch: int, name: string, extra: Arg)
    | FrequencyCall(ch: int, f: int)
    | VolumeCall(ch: int, amp: real)
    | PanCall(ch: int, pan: real)
    | InterpolationCall(ch: int, arg: Arg)
    | FadeCall(ch: int, bits: FloatBits)
    | Tick

  function Perform(t: Table, call: Call): Outcome
  {
    match call
    case WaveTypeCall(ch, name, extra) => SetWaveType(t, ch, name, extra)
    case FrequencyCall(ch, f) => SetFrequency(t, ch, f)
    case VolumeCall(ch, amp) => SetVolume(t, ch, amp)
    case PanCall(ch, pan) => SetPan(t, ch, pan)
    case InterpolationCall(ch, arg) => SetInterpolation(t, ch, arg)
    case FadeCall(ch, bits) => FadeOut(t, ch, bits)
    case Tick => Done(t, KeepAlive)
  }

  /** The bytes a call put on the line: none when it raised an error. */
  function Written(o: Outcome): seq<byte>
  {
    if o.Done? then o.out else []
  }

  /** The plugin's table after a series of calls, and every byte written,
      in order.  Each call holds the output lock for all its bytes, so
      writes never interleave. */
  datatype Transcript = Transcript(table: Table, wire: seq<byte>)

  function Session(t: Table, calls: seq<Call>): Transcript
    decreases |calls|
  {
    if calls == [] then Transcript(t, [])
    else
      var o := Perform(t, calls[0]);
      var rest := Session(o.channels, calls[1..]);
      Transcript(rest.table, Written(o) + rest.wire)
  }
}
