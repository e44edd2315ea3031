/**
 * The MIDI sound plugin (sound-midi.cpp): the same Lua `sound` API as the
 * serial plugin, for 16 channels, speaking MIDI to the sound board.  Plugin
 * channel `ch` is MIDI channel `ch - 1`.  Unlike the serial plugin it sends
 * a message only when the stored value changes.
 */
module HostMidi {
  import opened Common
  import opened Plugin

  const NumChannels: nat := 16

  const NoteOff: byte := 0x80
  const ControlChange: byte := 0xB0
  const ProgramChange: byte := 0xC0

  const ControlDuty: byte := 1
  const ControlVolume: byte := 7
  const ControlPan: byte := 10
  const ControlFrequencyMsb: byte := 24
  const ControlFrequencyLsb: byte := 56
  const ControlMono: byte := 126
  const ControlPoly: byte := 127

  /** A three-byte channel message. */
  datatype Message = Message(status: byte, data1: byte, data2: byte)

  /** `sendMessage(message, ch - 1, p1, p2)`: the message kind in the high
      nibble of the status byte, the MIDI channel in the low one. */
  function Send(kind: byte, ch: int, p1: byte, p2: byte): (r: Message)
    requires kind % 16 == 0 && ValidChannel(ch, NumChannels)
    ensures r.status / 16 == kind / 16 && r.status % 16 == ch - 1
    ensures r.data1 == p1 && r.data2 == p2
  {
    Message(kind + (ch - 1), p1, p2)
  }

  function InitialTable(mode: Interpolation): (r: seq<Channel>)
    ensures |r| == NumChannels
  {
    seq(NumChannels, i => InitialChannel(mode))
  }

  type Table = s: seq<Channel> | |s| == NumChannels witness InitialTable(NoInterpolation)

  datatype Outcome = Done(channels: Table, out: seq<Message>) | Failed(channels: Table, error: Error)

  /** The program number selecting each wave type: the enum value, where
      `PitchedNoise` is 22. */
  function Program(w: WaveType): (r: byte)
    ensures r < 128
    ensures r == 5 <==> w == Square
  {
    match w
    case NoWave => 0
    case Sine => 1
    case Triangle => 2
    case Sawtooth => 3
    case RSawtooth => 4
    case Square => 5
    case Noise => 6
    case Custom => 7
    case PitchedNoise => 22
  }

  lemma ProgramInjective(v: WaveType, w: WaveType)
    ensures Program(v) == Program(w) <==> v == w
  {
  }

  /** A value in [0, 1] scaled to 0..127 and truncated. */
  function Scale127(x: real): (r: byte)
    requires 0.0 <= x <= 1.0
    ensures r < 128
    ensures r as real <= x * 127.0 < r as real + 1.0
  {
    (x * 127.0).Floor
  }

  /** The messages announcing a record `c` that replaced `prev`. */
  function WaveMessages(ch: int, prev: Channel, c: Channel): (r: seq<Message>)
    requires ValidChannel(ch, NumChannels)
    requires c.wave == Square ==> 0.0 <= c.duty <= 1.0
    ensures c.wave == Square && prev.wave != Square ==>
      r == [Send(ControlChange, ch, ControlDuty, Scale127(c.duty)), Send(ProgramChange, ch, 5, 0)]
    ensures c.wave == Square && prev.wave == Square ==> r == [Send(ControlChange, ch, ControlDuty, Scale127(c.duty))]
    ensures c.wave == Custom ==> r == []
    ensures c.wave != Square && c.wave != Custom ==> r == [Send(ProgramChange, ch, Program(c.wave), 0)]
  {
    if c.wave == Square then
      [Send(ControlChange, ch, ControlDuty, Scale127(c.duty))]
        + (if prev.wave != Square then [Send(ProgramChange, ch, Program(Square), 0)] else [])
    else if c.wave == Custom then []
    else [Send(ProgramChange, ch, Program(c.wave), 0)]
  }

  /** Messages go out only if the type or the duty changed. */
  function Announce(ch: int, prev: Channel, c: Channel): (r: seq<Message>)
    requires ValidChannel(ch, NumChannels)
    requires c.wave == Square ==> 0.0 <= c.duty <= 1.0
    ensures c.wave == prev.wave && c.duty == prev.duty ==> r == []
    ensures !(c.wave == prev.wave && c.duty == prev.duty) ==> r == WaveMessages(ch, prev, c)
  {
    if c.wave != prev.wave || c.duty != prev.duty then WaveMessages(ch, prev, c) else []
  }

  /** `sound.setWaveType` as written: the name table whose `pitchedNoise`
      alias no lowered name reaches, and a record that switches to square
      before the duty is checked, so a rejected duty still leaves it
      square. */
  function SetWaveTypeAsWritten(t: Table, ch: int, name: string, extra: Arg): (r: Outcome)
    ensures !ValidChannel(ch, NumChannels) ==> r == Failed(t, ChannelOutOfRange)
    ensures ValidChannel(ch, NumChannels) && WaveNamedAsWritten(ToLower(name)).None? ==> r == Failed(t, InvalidOption)
    ensures ValidChannel(ch, NumChannels) ==> (r.Done? <==> SetWaveAsWritten(t[ch - 1], name, extra).Updated?)
    ensures r.Failed? ==>
      r.channels == t || (ValidChannel(ch, NumChannels) && r.channels == t[ch - 1 := t[ch - 1].(wave := Square)])
    ensures r.Done? ==>
      && r.channels == t[ch - 1 := SetWaveAsWritten(t[ch - 1], name, extra).channel]
      && r.out == Announce(ch, t[ch - 1], r.channels[ch - 1])
  {
    if !ValidChannel(ch, NumChannels) then Failed(t, ChannelOutOfRange)
    else match SetWaveAsWritten(t[ch - 1], name, extra)
      case Raised(c, e) =>
        assert c == t[ch - 1] ==> t[ch - 1 := c] == t;
        Failed(t[ch - 1 := c], e)
      case Updated(c) => Done(t[ch - 1 := c], Announce(ch, t[ch - 1], c))
  }

  /** As written, "pitchedNoise" is refused on every channel. */
  lemma PitchedNoiseRefusedAsWritten(t: Table, ch: int, name: string, extra: Arg)
    requires ValidChannel(ch, NumChannels) && name == "pitchedNoise"
    ensures SetWaveTypeAsWritten(t, ch, name, extra) == Failed(t, InvalidOption)
  {
    LowerPitchedNoise();
    LoweredAliasRefusedAsWritten();
  }

  /** Corrected, it selects pitched noise and sends its program, 22. */
  lemma PitchedNoiseAccepted(t: Table, ch: int, name: string, extra: Arg)
    requires ValidChannel(ch, NumChannels) && name == "pitchedNoise"
    ensures var r := SetWaveType(t, ch, name, extra);
      && r == Done(t[ch - 1 := t[ch - 1].(wave := PitchedNoise)], r.out)
      && (t[ch - 1].wave != PitchedNoise ==> r.out == [Send(ProgramChange, ch, 22, 0)])
  {
    LowerPitchedNoise();
    PitchedNoiseSelected(t, ch, name, extra);
  }

  lemma PitchedNoiseSelected(t: Table, ch: int, name: string, extra: Arg)
    requires ValidChannel(ch, NumChannels) && ToLower(name) == "pitchednoise"
    ensures var r := SetWaveType(t, ch, name, extra);
      && r == Done(t[ch - 1 := t[ch - 1].(wave := PitchedNoise)], r.out)
      && (t[ch - 1].wave != PitchedNoise ==> r.out == [Send(ProgramChange, ch, 22, 0)])
  {
    SetWaveAsWrittenDiffers(t[ch - 1], name, extra);
  }

  /** `sound.setWaveType` with every argument checked before the record
      changes. */
  function SetWaveType(t: Table, ch: int, name: string, extra: Arg): (r: Outcome)
    ensures !ValidChannel(ch, NumChannels) ==> r == Failed(t, ChannelOutOfRange)
    ensures r.Failed? ==> r.channels == t
    ensures ValidChannel(ch, NumChannels) ==>
      (r.Done? <==> SetWave(t[ch - 1], name, extra).Updated?)
    ensures r.Done? ==>
      && r.channels == t[ch - 1 := SetWave(t[ch - 1], name, extra).channel]
      && r.out == Announce(ch, t[ch - 1], r.channels[ch - 1])
  {
    if !ValidChannel(ch, NumChannels) then Failed(t, ChannelOutOfRange)
    else match SetWave(t[ch - 1], name, extra)
      case Raised(c, e) => Failed(t, e)
      case Updated(c) => Done(t[ch - 1 := c], Announce(ch, t[ch - 1], c))
  }

  /** `sound.setFrequency`: a changed value is stored and sent as two
      control changes, the low seven bits on 56 and the next seven on 24. */
  function SetFrequency(t: Table, ch: int, f: int): (r: Outcome)
    ensures !ValidChannel(ch, NumChannels) ==> r == Failed(t, ChannelOutOfRange)
    ensures r.Done? <==> ValidChannel(ch, NumChannels) && 0 <= f < 0x1_0000
    ensures r.Failed? ==> r.channels == t
    ensures r.Done? ==> r.channels == t[ch - 1 := t[ch - 1].(frequency := f)]
    ensures r.Done? && t[ch - 1].frequency == f ==> r.out == []
    ensures r.Done? && t[ch - 1].frequency != f ==>
      && |r.out| == 2
      && r.out[0].status == r.out[1].status == ControlChange + (ch - 1)
      && r.out[0].data1 == ControlFrequencyLsb && r.out[1].data1 == ControlFrequencyMsb
      && r.out[0].data2 < 128 && r.out[1].data2 < 128
      && r.out[1].data2 * 128 + r.out[0].data2 == f % 0x4000
  {
    if !ValidChannel(ch, NumChannels) then Failed(t, ChannelOutOfRange)
    else if f < 0 || f > 65535 then Failed(t, FrequencyOutOfRange)
    else if t[ch - 1].frequency == f then Done(t, [])
    else
      var freq := f % 0x4000;
      Done(t[ch - 1 := t[ch - 1].(frequency := f)],
           [Send(ControlChange, ch, ControlFrequencyLsb, freq % 128),
            Send(ControlChange, ch, ControlFrequencyMsb, freq / 128)])
  }

  /** The smallest volume step that is sent: 1/128. */
  const VolumeStep: real := 0.0078125

  function Abs(x: real): real
  {
    if x < 0.0 then -x else x
  }

  /** `sound.setVolume`: a volume at least 1/128 away from the stored one
      is stored and sent on control 7, scaled to 0..127; a smaller change
      is neither stored nor sent. */
  function SetVolume(t: Table, ch: int, amp: real): (r: Outcome)
    ensures !ValidChannel(ch, NumChannels) ==> r == Failed(t, ChannelOutOfRange)
    ensures r.Done? <==> ValidChannel(ch, NumChannels) && 0.0 <= amp <= 1.0
    ensures r.Failed? ==> r.channels == t
    ensures r.Done? && Abs(t[ch - 1].amplitude - amp) < VolumeStep ==> r.channels == t && r.out == []
    ensures r.Done? && Abs(t[ch - 1].amplitude - amp) >= VolumeStep ==>
      && r.channels == t[ch - 1 := t[ch - 1].(amplitude := amp)]
      && r.out == [Send(ControlChange, ch, ControlVolume, Scale127(amp))]
  {
    if !ValidChannel(ch, NumChannels) then Failed(t, ChannelOutOfRange)
    else if amp < 0.0 || amp > 1.0 then Failed(t, VolumeOutOfRange)
    else if Abs(t[ch - 1].amplitude - amp) >= VolumeStep then
      Done(t[ch - 1 := t[ch - 1].(amplitude := amp)], [Send(ControlChange, ch, ControlVolume, Scale127(amp))])
    else Done(t, [])
  }

  /** The pan position -1..1 as a control value: `(pan + 1) * 63.5`, truncated. */
  function PanValue(pan: real): (r: byte)
    requires -1.0 <= pan <= 1.0
    ensures r < 128
    ensures r as real <= (pan + 1.0) * 63.5 < r as real + 1.0
  {
    ((pan + 1.0) * 63.5).Floor
  }

  /** Hard left, centre and hard right. */
  lemma PanValueEnds()
    ensures PanValue(-1.0) == 0 && PanValue(0.0) == 63 && PanValue(1.0) == 127
  {
  }

  /** `sound.setPan`: stored and sent on control 10, every time. */
  function SetPan(t: Table, ch: int, pan: real): (r: Outcome)
    ensures !ValidChannel(ch, NumChannels) ==> r == Failed(t, ChannelOutOfRange)
    ensures r.Done? <==> ValidChannel(ch, NumChannels) && -1.0 <= pan <= 1.0
    ensures r.Failed? ==> r.channels == t
    ensures r.Done? ==>
      && r.channels == t[ch - 1 := t[ch - 1].(pan := pan)]
      && r.out == [Send(ControlChange, ch, ControlPan, PanValue(pan))]
  {
    if !ValidChannel(ch, NumChannels) then Failed(t, ChannelOutOfRange)
    else if pan < -1.0 || pan > 1.0 then Failed(t, PanOutOfRange)
    else Done(t[ch - 1 := t[ch - 1].(pan := pan)], [Send(ControlChange, ch, ControlPan, PanValue(pan))])
  }

  /** `sound.setInterpolation`: the mode is stored; nothing is sent. */
  function SetInterpolation(t: Table, ch: int, arg: Arg): (r: Outcome)
    ensures !ValidChannel(ch, NumChannels) ==> r == Failed(t, ChannelOutOfRange)
    ensures r.Failed? ==> r.channels == t
    ensures r.Done? ==>
      && r.out == []
      && r.channels == t[ch - 1 := Plugin.SetInterpolation(t[ch - 1], arg).channel]
  {
    if !ValidChannel(ch, NumChannels) then Failed(t, ChannelOutOfRange)
    else match Plugin.SetInterpolation(t[ch - 1], arg)
      case Raised(c, e) => Failed(t, e)
      case Updated(c) => Done(t[ch - 1 := c], [])
  }

  /** `sound.setInterpolation` as written: only the strings "none" and
      "linear" are taken. */
  function SetInterpolationAsWritten(t: Table, ch: int, arg: Arg): (r: Outcome)
    ensures !ValidChannel(ch, NumChannels) ==> r == Failed(t, ChannelOutOfRange)
    ensures r.Done? <==> ValidChannel(ch, NumChannels) && arg.Text? && (arg.s == "none" || arg.s == "linear")
    ensures r.Failed? ==> r.channels == t
    ensures r.Done? ==>
      && r.out == []
      && r.channels == t[ch - 1 := t[ch - 1].(interpolation := if arg.s == "linear" then Linear else NoInterpolation)]
  {
    if !ValidChannel(ch, NumChannels) then Failed(t, ChannelOutOfRange)
    else match Plugin.SetInterpolationAsWritten(t[ch - 1], arg)
      case Raised(c, e) => Failed(t, e)
      case Updated(c) => Done(t[ch - 1 := c], [])
  }

  /** As written, the documented option 2 is refused; corrected, it selects
      linear interpolation. */
  lemma NumericInterpolationRefusedAsWritten(t: Table, ch: int)
    requires ValidChannel(ch, NumChannels)
    ensures SetInterpolationAsWritten(t, ch, Number(2.0)) == Failed(t, InvalidOption)
    ensures SetInterpolation(t, ch, Number(2.0)) == Done(t[ch - 1 := t[ch - 1].(interpolation := Linear)], [])
  {
  }

  /** The longest fade a Note Off velocity can express, in seconds. */
  const LongestFade: real := 127.0 / 64.0

  /** The Note Off velocity for a fade of `time` seconds (at most
      `LongestFade`): 127 minus the time in 64ths of a second. */
  function FadeVelocity(time: real): (r: byte)
    requires 0.0 < time <= LongestFade
    ensures r < 128
  {
    127 - (time * 64.0).Floor
  }

  /** The velocity names the fade time to within 1/64 s, and longer fades
      give lower velocities. */
  lemma FadeVelocityDecodes(time: real, other: real)
    requires 0.0 < time <= LongestFade && 0.0 < other <= LongestFade
    ensures var v := FadeVelocity(time);
      (127 - v) as real / 64.0 <= time < (128 - v) as real / 64.0
    ensures time <= other ==> FadeVelocity(other) <= FadeVelocity(time)
  {
  }

  /** `sound.fadeOut`: a time of zero or less does nothing; otherwise it is
      capped at `LongestFade`, a Note Off for note 0 carries it as the
      velocity, and the stored volume drops to 0. */
  function FadeOut(t: Table, ch: int, time: real): (r: Outcome)
    ensures !ValidChannel(ch, NumChannels) ==> r == Failed(t, ChannelOutOfRange)
    ensures r.Done? <==> ValidChannel(ch, NumChannels)
    ensures r.Done? && time <= 0.0 ==> r.channels == t && r.out == []
    ensures r.Done? && time > 0.0 ==>
      && r.channels == t[ch - 1 := t[ch - 1].(amplitude := 0.0)]
      && r.out == [Send(NoteOff, ch, 0, FadeVelocity(if time > LongestFade then LongestFade else time))]
  {
    if !ValidChannel(ch, NumChannels) then Failed(t, ChannelOutOfRange)
    else if time > LongestFade then
      Done(t[ch - 1 := t[ch - 1].(amplitude := 0.0)], [Send(NoteOff, ch, 0, FadeVelocity(LongestFade))])
    else if time <= 0.0 then Done(t, [])
    else Done(t[ch - 1 := t[ch - 1].(amplitude := 0.0)], [Send(NoteOff, ch, 0, FadeVelocity(time))])
  }

  /** Sent when the plugin loads: mono mode, on channel 1. */
  function InitMessages(): (r: seq<Message>)
    ensures r == [Send(ControlChange, 1, ControlMono, 0)] && r[0].status == 0xB0
  {
    [Send(ControlChange, 1, ControlMono, 0)]
  }

  /** Sent when it unloads: poly mode, on channel 1. */
  function DeinitMessages(): (r: seq<Message>)
    ensures r == [Send(ControlChange, 1, ControlPoly, 0)] && r[0].status == 0xB0
  {
    [Send(ControlChange, 1, ControlPoly, 0)]
  }

  function GetWaveType(t: Table, ch: int): (r: Result<WaveReport, Error>)
    ensures r.Err? <==> !ValidChannel(ch, NumChannels)
    ensures r.Ok? ==> r.value == GetWave(t[ch - 1])
  {
    if !ValidChannel(ch, NumChannels) then Err(ChannelOutOfRange) else Ok(GetWave(t[ch - 1]))
  }

  function GetFrequency(t: Table, ch: int): (r: Result<int, Error>)
    ensures r.Err? <==> !ValidChannel(ch, NumChannels)
    ensures r.Ok? ==> r.value == t[ch - 1].frequency
  {
    if !ValidChannel(ch, NumChannels) then Err(ChannelOutOfRange) else Ok(t[ch - 1].frequency)
  }

  function GetVolume(t: Table, ch: int): (r: Result<real, Error>)
    ensures r.Err? <==> !ValidChannel(ch, NumChannels)
    ensures r.Ok? ==> r.value == t[ch - 1].amplitude
  {
    if !ValidChannel(ch, NumChannels) then Err(ChannelOutOfRange) else Ok(t[ch - 1].amplitude)
  }

  function GetPan(t: Table, ch: int): (r: Result<real, Error>)
    ensures r.Err? <==> !ValidChannel(ch, NumChannels)
    ensures r.Ok? ==> r.value == t[ch - 1].pan
  {
    if !ValidChannel(ch, NumChannels) then Err(ChannelOutOfRange) else Ok(t[ch - 1].pan)
  }

  function GetInterpolation(t: Table, ch: int): (r: Result<string, Error>)
    ensures r.Err? <==> !ValidChannel(ch, NumChannels)
    ensures r.Ok? ==> r.value == Plugin.GetInterpolation(t[ch - 1])
  {
    if !ValidChannel(ch, NumChannels) then Err(ChannelOutOfRange) else Ok(Plugin.GetInterpolation(t[ch - 1]))
  }

  /** `sound.getInterpolation` as written: whatever the mode, "unknown". */
  function GetInterpolationAsWritten(t: Table, ch: int): (r: Result<string, Error>)
    ensures r.Err? <==> !ValidChannel(ch, NumChannels)
    ensures r.Ok? ==> r.value == "unknown"
  {
    if !ValidChannel(ch, NumChannels) then Err(ChannelOutOfRange) else Ok(Plugin.GetInterpolationAsWritten(t[ch - 1]))
  }

  /** After a successful `setInterpolation`, the corrected getter names the
      mode set; the getter as written answers "unknown". */
  lemma InterpolationReadsBack(t: Table, ch: int, arg: Arg)
    requires SetInterpolation(t, ch, arg).Done?
    ensures var r := SetInterpolation(t, ch, arg);
      && GetInterpolationAsWritten(r.channels, ch) == Ok("unknown")
      && (arg.Text? ==> GetInterpolation(r.channels, ch) == Ok(arg.s))
      && (arg.Number? ==> GetInterpolation(r.channels, ch) == Ok(if Truncate(arg.x) == 1 then "none" else "linear"))
  {
    InterpolationRoundTrip(t[ch - 1], arg);
  }

  /** What the getters read back after a setter: the volume stored is
      always within one step of the one asked for (a smaller change is not
      stored), the pan is stored as given, a fade leaves the volume at 0,
      and the other channels keep theirs. */
  lemma SettersReadBack(t: Table, ch: int, amp: real, pan: real, time: real, other: int)
    requires ValidChannel(ch, NumChannels) && ValidChannel(other, NumChannels) && other != ch
    ensures SetVolume(t, ch, amp).Done? ==>
      && GetVolume(SetVolume(t, ch, amp).channels, ch).Ok?
      && Abs(GetVolume(SetVolume(t, ch, amp).channels, ch).value - amp) < VolumeStep
      && GetVolume(SetVolume(t, ch, amp).channels, other) == GetVolume(t, other)
    ensures SetPan(t, ch, pan).Done? ==>
      && GetPan(SetPan(t, ch, pan).channels, ch) == Ok(pan)
      && GetPan(SetPan(t, ch, pan).channels, other) == GetPan(t, other)
    ensures time > 0.0 ==>
      && GetVolume(FadeOut(t, ch, time).channels, ch) == Ok(0.0)
      && GetVolume(FadeOut(t, ch, time).channels, other) == GetVolume(t, other)
  {
  }

  // ---------------------------------------------------------------------
  // What the messages have told the board.

  /** The frequency the two control changes carry, as the board assembles it. */
  function ReceivedFrequency(lsb: Message, msb: Message): int
  {
    msb.data2 * 128 + lsb.data2
  }

  /** A changed frequency arrives as its low 14 bits, and reads back whole
      through `getFrequency`. */
  lemma FrequencyRoundTrip(t: Table, ch: int, f: int)
    requires SetFrequency(t, ch, f).Done? && t[ch - 1].frequency != f
    ensures var r := SetFrequency(t, ch, f);
      && ReceivedFrequency(r.out[0], r.out[1]) == f % 0x4000
      && GetFrequency(r.channels, ch) == Ok(f)
  {
  }

  /** The program of the last Program Change sent on MIDI channel `ch0`. */
  function LastProgram(sent: seq<Message>, ch0: nat): Option<byte>
    requires ch0 < NumChannels
    decreases |sent|
  {
    if sent == [] then None
    else
      var m := sent[|sent| - 1];
      if m.status == ProgramChange + ch0 then Some(m.data1)
      else LastProgram(sent[..|sent| - 1], ch0)
  }

  lemma {:induction false} LastProgramAppend(a: seq<Message>, b: seq<Message>, ch0: nat)
    requires ch0 < NumChannels
    ensures LastProgram(a + b, ch0) == if LastProgram(b, ch0).Some? then LastProgram(b, ch0) else LastProgram(a, ch0)
    decreases |b|
  {
    if b == [] {
      assert a + b == a;
    } else {
      var m := b[|b| - 1];
      assert (a + b)[|a + b| - 1] == m;
      assert (a + b)[..|a + b| - 1] == a + b[..|b| - 1];
      LastProgramAppend(a, b[..|b| - 1], ch0);
    }
  }

  /** The record's wave type is what the board was last told: the last
      Program Change on its channel selects it (or none was sent and the
      type is still the initial one).  A custom wave is never sent, so it
      is exempt. */
  predicate Conveys(c: Channel, last: Option<byte>)
  {
    c.wave == Custom || last == Some(Program(c.wave)) || (last.None? && c.wave == NoWave)
  }

  /** Every channel's record is conveyed by the messages `sent`. */
  predicate AllConveyed(t: Table, sent: seq<Message>)
  {
    forall i :: 0 <= i < NumChannels ==> Conveys(t[i], LastProgram(sent, i))
  }

  /** As written, a rejected square duty on a sine channel leaves the record
      square while the board was last told sine; the next `setWaveType`
      square with the default duty then finds nothing changed and sends
      nothing, so the board never hears of the square wave. */
  lemma RejectedDutyDesyncsAsWritten(t: Table, sent: seq<Message>)
    requires t[0].wave == Sine && t[0].duty == 0.5 && LastProgram(sent, 0) == Some(1)
    ensures var r := SetWaveTypeAsWritten(t, 1, "square", Number(2.0));
      && r == Failed(t[0 := t[0].(wave := Square)], DutyOutOfRange)
      && !Conveys(r.channels[0], LastProgram(sent, 0))
      && SetWaveTypeAsWritten(r.channels, 1, "square", Nil) == Done(r.channels, [])
  {
    var r := SetWaveTypeAsWritten(t, 1, "square", Number(2.0));
    LowerSquare();
    assert r.channels[0].(wave := Square, duty := 0.5) == r.channels[0];
  }

  lemma LowerSquare()
    ensures ToLower("square") == "square"
  {
    ToLowerOfLower("square");
  }

  /** Calls other than `setWaveType` send no Program Change. */
  predicate NoProgramChange(out: seq<Message>)
  {
    forall k :: 0 <= k < |out| ==> out[k].status / 16 != ProgramChange / 16
  }

  lemma {:induction false} NoProgramChangeKeepsLast(sent: seq<Message>, out: seq<Message>, ch0: nat)
    requires ch0 < NumChannels && NoProgramChange(out)
    ensures LastProgram(sent + out, ch0) == LastProgram(sent, ch0)
    decreases |out|
  {
    if out == [] {
      assert sent + out == sent;
    } else {
      var init := out[..|out| - 1];
      assert (sent + out)[..|sent + out| - 1] == sent + init;
      assert NoProgramChange(init);
      NoProgramChangeKeepsLast(sent, init, ch0);
    }
  }

  /** Messages on other MIDI channels say nothing about `ch0`. */
  lemma {:induction false} OtherChannelKeepsLast(sent: seq<Message>, out: seq<Message>, ch0: nat)
    requires ch0 < NumChannels
    requires forall k :: 0 <= k < |out| ==> out[k].status % 16 != ch0
    ensures LastProgram(sent + out, ch0) == LastProgram(sent, ch0)
    decreases |out|
  {
    if out == [] {
      assert sent + out == sent;
    } else {
      var init := out[..|out| - 1];
      assert (sent + out)[..|sent + out| - 1] == sent + init;
      OtherChannelKeepsLast(sent, init, ch0);
    }
  }

  /** What the announcement of a new record leaves as the channel's last
      program. */
  lemma AnnounceConveys(ch: int, prev: Channel, c: Channel, sent: seq<Message>)
    requires ValidChannel(ch, NumChannels)
    requires c.wave == Square ==> 0.0 <= c.duty <= 1.0
    requires Conveys(prev, LastProgram(sent, ch - 1))
    requires c.wave == prev.wave && c.wave != Square ==> c.duty == prev.duty
    ensures Conveys(c, LastProgram(sent + Announce(ch, prev, c), ch - 1))
  {
    var out := Announce(ch, prev, c);
    LastProgramAppend(sent, out, ch - 1);
    if out != [] && c.wave == Square && prev.wave == Square {
      assert LastProgram(out, ch - 1) == LastProgram([], ch - 1);
    }
  }

  /** One corrected `setWaveType` keeps every record conveyed. */
  lemma WaveTypeConveys(t: Table, ch: int, name: string, extra: Arg, sent: seq<Message>)
    requires AllConveyed(t, sent)
    ensures var r := SetWaveType(t, ch, name, extra);
      AllConveyed(r.channels, sent + (if r.Done? then r.out else []))
  {
    var r := SetWaveType(t, ch, name, extra);
    if r.Done? {
      UpdateConveys(t, ch, r.channels[ch - 1], sent);
    } else {
      assert sent + [] == sent;
    }
  }

  /** Storing a record in channel `ch` and announcing it keeps every record
      conveyed. */
  lemma UpdateConveys(t: Table, ch: int, c: Channel, sent: seq<Message>)
    requires ValidChannel(ch, NumChannels) && AllConveyed(t, sent)
    requires c.wave == Square ==> 0.0 <= c.duty <= 1.0
    requires c.wave == t[ch - 1].wave && c.wave != Square ==> c.duty == t[ch - 1].duty
    ensures AllConveyed(t[ch - 1 := c], sent + Announce(ch, t[ch - 1], c))
  {
    var out := Announce(ch, t[ch - 1], c);
    AnnounceConveys(ch, t[ch - 1], c, sent);
    forall i | 0 <= i < NumChannels && i != ch - 1
      ensures Conveys(t[ch - 1 := c][i], LastProgram(sent + out, i))
    {
      OtherChannelKeepsLast(sent, out, i);
    }
  }

  // ---------------------------------------------------------------------
  // Sessions.

  datatype Call =
    | WaveTypeCall(ch: int, name: string, extra: Arg)
    | FrequencyCall(ch: int, f: int)
    | VolumeCall(ch: int, amp: real)
    | PanCall(ch: int, pan: real)
    | InterpolationCall(ch: int, arg: Arg)
    | FadeCall(ch: int, time: real)

  function Perform(t: Table, call: Call): Outcome
  {
    match call
    case WaveTypeCall(ch, name, extra) => SetWaveType(t, ch, name, extra)
    case FrequencyCall(ch, f) => SetFrequency(t, ch, f)
    case VolumeCall(ch, amp) => SetVolume(t, ch, amp)
    case PanCall(ch, pan) => SetPan(t, ch, pan)
    case InterpolationCall(ch, arg) => SetInterpolation(t, ch, arg)
    case FadeCall(ch, time) => FadeOut(t, ch, time)
  }

  function Written(o: Outcome): seq<Message>
  {
    if o.Done? then o.out else []
  }

  datatype Transcript = Transcript(table: Table, sent: seq<Message>)

  function Session(t: Table, calls: seq<Call>): Transcript
    decreases |calls|
  {
    if calls == [] then Transcript(t, [])
    else
      var o := Perform(t, calls[0]);
      var rest := Session(o.channels, calls[1..]);
      Transcript(rest.table, Written(o) + rest.sent)
  }

  /** Any call keeps every record conveyed. */
  lemma CallConveys(t: Table, call: Call, sent: seq<Message>)
    requires AllConveyed(t, sent)
    ensures var o := Perform(t, call);
      AllConveyed(o.channels, sent + Written(o))
  {
    var o := Perform(t, call);
    if call.WaveTypeCall? {
      WaveTypeConveys(t, call.ch, call.name, call.extra, sent);
    } else {
      OtherCallKeepsWaves(t, call);
      forall i | 0 <= i < NumChannels
        ensures Conveys(o.channels[i], LastProgram(sent + Written(o), i))
      {
        NoProgramChangeKeepsLast(sent, Written(o), i);
      }
    }
  }

  /** Every call but `setWaveType` sends no Program Change and keeps every
      channel's wave type. */
  lemma OtherCallKeepsWaves(t: Table, call: Call)
    requires !call.WaveTypeCall?
    ensures var o := Perform(t, call);
      && NoProgramChange(Written(o))
      && forall i :: 0 <= i < NumChannels ==> o.channels[i].wave == t[i].wave
  {
  }

  /** With the corrected `setWaveType`, after any series of calls from a
      fresh table, the last Program Change on each channel names that
      channel's wave type (custom excepted). */
  lemma {:induction false} SessionConveys(t: Table, calls: seq<Call>, sent: seq<Message>)
    requires AllConveyed(t, sent)
    ensures var s := Session(t, calls);
      AllConveyed(s.table, sent + s.sent)
    decreases |calls|
  {
    if calls != [] {
      var o := Perform(t, calls[0]);
      CallConveys(t, calls[0], sent);
      var rest := Session(o.channels, calls[1..]);
      SessionConveys(o.channels, calls[1..], sent + Written(o));
      AppendAssoc(sent, Written(o), rest.sent);
    } else {
      assert sent + [] == sent;
    }
  }

  lemma InitialConveyed(mode: Interpolation)
    ensures AllConveyed(InitialTable(mode), [])
  {
  }
}
