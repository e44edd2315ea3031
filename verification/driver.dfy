/**
 * The serial command interpreter of the sound driver board
 * (pico-sound-driver/main.cpp, `main`).
 *
 * Each command byte carries a 3-bit command class in its top bits and a
 * 5-bit channel in its low bits, followed by class-specific argument bytes.
 * The interpreter keeps one record per channel (16 of them), drops writes
 * that would change nothing, and forwards accepted changes to the sound chips
 * as an addressing pulse train (`interrupt`) followed by one or two bus bytes
 * (`write_data`).  Reading from the serial port blocks, so a command whose
 * argument bytes have not all arrived yet is simply pending.
 */
module Driver {
  import opened Common
  import Wire

  const NumChannels: nat := 16

  const CommandWaveType: byte := 0x00
  const CommandVolume: byte := 0x40
  const CommandFrequency: byte := 0x80

  /** The byte that asks for a diagnostic dump instead of a command. */
  const DumpRequest: byte := 0x5C

  /** `typeconv`: wave-type enum value (None, Sine, Triangle, Sawtooth,
      RSawtooth, Square, Noise, Custom, PitchedNoise) to the chips' wave code. */
  const TypeConv: seq<byte> := [0, 5, 4, 2, 3, 1, 6, 0, 6]

  /** The seven bytes of memory that follow `typeconv`: a 4-bit wave type of
      9..15 reads one of them, and the source does not say what they hold. */
  type Overread = s: seq<byte> | |s| == 7 witness [0, 0, 0, 0, 0, 0, 0]

  /** The chip wave code sent for a 4-bit wave-type field. */
  function ChipWaveCode(t: nat, past: Overread): byte
    requires t < 16
  {
    if t < |TypeConv| then TypeConv[t] else past[t - |TypeConv|]
  }

  /** The stored duty cycle: 0.5 until a square wave sets it to `b`/255. */
  datatype Duty = DefaultHalf | Ratio(b: byte)

  /** One `ChannelInfo`.  `wave` is the raw 4-bit enum value (the source
      casts any 0..15 into the enum); `lastVolume` is the byte behind
      `newAmplitude`, absent while that is still -1; `fading` says whether
      a fade is armed (its duration is not zero). */
  datatype Channel = Channel(
    wave: nat,
    duty: Duty,
    frequency: int,
    lastVolume: Option<byte>,
    interpolation: Interpolation,
    custom: seq<byte>,
    fadeDirection: int,
    fading: bool)

  /** The default-initialised `ChannelInfo`. */
  const InitialChannel: Channel :=
    Channel(0, DefaultHalf, 0, None, NoInterpolation, [], -1, false)

  function InitialTable(): (r: seq<Channel>)
    ensures |r| == NumChannels
  {
    seq(NumChannels, i => InitialChannel)
  }

  /** The global channel array. */
  type Table = s: seq<Channel> | |s| == NumChannels witness InitialTable()

  /** The interpreter's state: the channel table and the debugging channel
      selected by class 6. */
  datatype Driver = Driver(channels: Table, current: nat)

  const Initial: Driver := Driver(InitialTable(), 0)

  predicate ValidChannel(c: Channel)
  {
    && c.wave < 16
    && 0 <= c.frequency < 0x1_0000
    && |c.custom| <= 512
    && (c.fadeDirection == 1 || c.fadeDirection == -1)
  }

  /** The invariant the interpreter keeps. */
  predicate Valid(d: Driver)
  {
    && (forall i :: 0 <= i < NumChannels ==> ValidChannel(d.channels[i]))
    && 0 <= d.current < 32
  }

  /** What the driver does to the chips: address one (`interrupt`), or put
      a byte on the bus (`write_data`). */
  datatype WireOp = Address(ch: nat) | Data(b: byte)

  /** The outcome of one command: more input is needed, or the command used
      `used` bytes (command byte included), moved to `next` and produced `out`. */
  datatype StepResult = NeedMore | Stepped(next: Driver, out: seq<WireOp>, used: nat)

  // ---------------------------------------------------------------------
  // Volume suppression.

  /** A volume byte is dropped when it equals the last accepted one. */
  predicate VolumeUnchanged(last: Option<byte>, vol: byte)
  {
    last == Some(vol)
  }

  /**
   * The same test as the source evaluates it: `newAmplitude` is a `float`
   * while `vol / 255.0` is a `double`, so they compare equal only when
   * `vol / 255` is exactly representable as a float, i.e. for 0 and 255.
   */
  predicate VolumeUnchangedAsWritten(last: Option<byte>, vol: byte)
  {
    last == Some(vol) && (vol == 0 || vol == 255)
  }

  /** As written, resending a mid-range volume is never suppressed; the
      intended test suppresses every repeat. */
  lemma VolumeRepeatNotSuppressedAsWritten()
    ensures !VolumeUnchangedAsWritten(Some(128), 128)
    ensures VolumeUnchanged(Some(128), 128)
  {
  }

  /** The intended test drops exactly the repeats, and the first volume
      (when `newAmplitude` is still -1) always goes through. */
  lemma VolumeUnchangedExactlyRepeats(last: Option<byte>, vol: byte)
    ensures VolumeUnchanged(last, vol) <==> last.Some? && last.value == vol
    ensures !VolumeUnchanged(None, vol)
    ensures VolumeUnchangedAsWritten(last, vol) ==> VolumeUnchanged(last, vol)
  {
  }

  // ---------------------------------------------------------------------
  // The fade argument: a 4-byte IEEE single, compared with +/-0.000001.

  datatype FadeKind = FadeIn | FadeCancel | FadeOut

  /** Magnitude bits of the largest float below 0.000001 (as a double). */
  const BelowMicro: int := 0x3586_37BD

  /**
   * The branch taken for a float with bit pattern `bits`.  For non-NaN floats
   * the order of magnitudes is the order of the low 31 bits; every
   * comparison with NaN is false, so NaN falls through to the fade-out branch.
   */
  function FadeKindOf(bits: int): FadeKind
    requires 0 <= bits < 0x1_0000_0000
  {
    var magnitude := bits % 0x8000_0000;
    var negative := bits >= 0x8000_0000;
    var nan := magnitude > 0x7F80_0000;
    if !nan && negative && magnitude > BelowMicro then FadeIn
    else if !nan && magnitude <= BelowMicro then FadeCancel
    else FadeOut
  }

  /** Flipping the sign of a float outside the dead band swaps fade-in and
      fade-out; inside the dead band the sign does not matter. */
  lemma FadeKindSign(bits: int)
    requires 0 <= bits < 0x1_0000_0000
    ensures var flipped := (bits + 0x8000_0000) % 0x1_0000_0000;
      && (FadeKindOf(bits) == FadeCancel <==> FadeKindOf(flipped) == FadeCancel)
      && (FadeKindOf(bits) == FadeIn ==> FadeKindOf(flipped) == FadeOut)
      && (bits % 0x8000_0000 <= 0x7F80_0000 && FadeKindOf(bits) == FadeOut ==> FadeKindOf(flipped) == FadeIn)
  {
  }

  // ---------------------------------------------------------------------
  // One command.

  function SetChannel(d: Driver, ch: nat, c: Channel): Driver
    requires ch < |d.channels|
  {
    d.(channels := d.channels[ch := c])
  }

  /** Class 0: wave type.  `args` starts after the command byte. */
  function WaveTypeCommand(d: Driver, ch: nat, args: seq<byte>, past: Overread): StepResult
    requires ch < 32
  {
    if |args| < 1 then NeedMore
    else
      var typef := args[0];
      var t := typef % 16;
      if t == 7 then
        if |args| < 2 then NeedMore
        else
          var size: int := args[1] as int + (if typef >= 128 then 256 else 0) + 1;
          if |args| < 2 + size then NeedMore
          else if ch >= NumChannels then Stepped(d, [], 3 + size)
          else
            var c := d.channels[ch].(wave := 7, custom := args[2..2 + size]);
            Stepped(SetChannel(d, ch, c), [Address(ch), Data(CommandWaveType + ChipWaveCode(7, past))], 3 + size)
      else if t == 5 then
        if |args| < 2 then NeedMore
        else
          var duty := args[1];
          if ch >= NumChannels || (d.channels[ch].wave == 5 && d.channels[ch].duty == Ratio(duty)) then
            Stepped(d, [], 3)
          else
            var c := d.channels[ch].(wave := 5, duty := Ratio(duty));
            Stepped(SetChannel(d, ch, c), [Address(ch), Data(CommandWaveType + ChipWaveCode(5, past)), Data(duty)], 3)
      else if ch >= NumChannels || d.channels[ch].wave == t then
        Stepped(d, [], 2)
      else
        var c := d.channels[ch].(wave := t);
        Stepped(SetChannel(d, ch, c), [Address(ch), Data(CommandWaveType + ChipWaveCode(t, past))], 2)
  }

  /** Class 1: frequency, a little-endian 16-bit argument.  The chip gets the
      low 14 bits: six in the command byte, eight in the next. */
  function FrequencyCommand(d: Driver, ch: nat, args: seq<byte>): StepResult
    requires ch < 32
  {
    if |args| < 2 then NeedMore
    else
      var f := LittleEndian16(args[0], args[1]);
      if ch >= NumChannels || d.channels[ch].frequency == f then Stepped(d, [], 3)
      else
        var c := d.channels[ch].(frequency := f);
        Stepped(SetChannel(d, ch, c), [Address(ch), Data(CommandFrequency + (f / 256) % 64), Data(f % 256)], 3)
  }

  /** Class 2: volume, one byte. */
  function VolumeCommand(d: Driver, ch: nat, args: seq<byte>): StepResult
    requires ch < 32
  {
    if |args| < 1 then NeedMore
    else
      var vol := args[0];
      if ch >= NumChannels || VolumeUnchanged(d.channels[ch].lastVolume, vol) then Stepped(d, [], 2)
      else
        var c := d.channels[ch].(lastVolume := Some(vol));
        Stepped(SetChannel(d, ch, c), [Address(ch), Data(CommandVolume), Data(vol)], 2)
  }

  /** Class 2 as written: the repeat test compares as the source does. */
  function VolumeCommandAsWritten(d: Driver, ch: nat, args: seq<byte>): StepResult
    requires ch < 32
  {
    if |args| < 1 then NeedMore
    else
      var vol := args[0];
      if ch >= NumChannels || VolumeUnchangedAsWritten(d.channels[ch].lastVolume, vol) then Stepped(d, [], 2)
      else
        var c := d.channels[ch].(lastVolume := Some(vol));
        Stepped(SetChannel(d, ch, c), [Address(ch), Data(CommandVolume), Data(vol)], 2)
  }

  /** Class 3: pan.  The argument is read and discarded. */
  function PanCommand(d: Driver, ch: nat, args: seq<byte>): StepResult
  {
    if |args| < 1 then NeedMore else Stepped(d, [], 2)
  }

  /** Class 4: interpolation; any non-zero byte selects linear. */
  function InterpolationCommand(d: Driver, ch: nat, args: seq<byte>): StepResult
    requires ch < 32
  {
    if |args| < 1 then NeedMore
    else if ch >= NumChannels then Stepped(d, [], 2)
    else
      var mode := if args[0] != 0 then Linear else NoInterpolation;
      Stepped(SetChannel(d, ch, d.channels[ch].(interpolation := mode)), [], 2)
  }

  /** Class 5: fade, a 4-byte float of seconds (negative = fade in). */
  function FadeCommand(d: Driver, ch: nat, args: seq<byte>): StepResult
    requires ch < 32
  {
    if |args| < 4 then NeedMore
    else if ch >= NumChannels then Stepped(d, [], 5)
    else
      var c := d.channels[ch];
      match FadeKindOf(LittleEndian32(args[..4]))
      case FadeIn =>
        Stepped(SetChannel(d, ch, c.(fadeDirection := 1, fading := true)), [Address(ch), Data(CommandVolume), Data(1)], 5)
      case FadeCancel =>
        Stepped(SetChannel(d, ch, c.(fading := false)), [], 5)
      case FadeOut =>
        Stepped(SetChannel(d, ch, c.(fadeDirection := -1, fading := true)), [Address(ch), Data(CommandVolume), Data(0)], 5)
  }

  /** One iteration of the command loop on the pending input `input`. */
  function Step(d: Driver, input: seq<byte>, past: Overread): (r: StepResult)
    ensures r.Stepped? ==> 1 <= r.used <= |input|
  {
    if input == [] then NeedMore
    else
    var cmd := input[0];
    var ch := cmd % 32;
    var args := input[1..];
    if cmd == DumpRequest then Stepped(d, [], 1)
    else match cmd / 32
      case 0 => WaveTypeCommand(d, ch, args, past)
      case 1 => FrequencyCommand(d, ch, args)
      case 2 => VolumeCommand(d, ch, args)
      case 3 => PanCommand(d, ch, args)
      case 4 => InterpolationCommand(d, ch, args)
      case 5 => FadeCommand(d, ch, args)
      case 6 => Stepped(d.(current := ch), [], 1)
      case _ => Stepped(d, [], 1)
  }

  /** One iteration of the command loop as written: `Step` with the
      volume class's repeat test as the source evaluates it. */
  function StepAsWritten(d: Driver, input: seq<byte>, past: Overread): StepResult
  {
    if input != [] && input[0] != DumpRequest && input[0] / 32 == 2 then
      VolumeCommandAsWritten(d, input[0] % 32, input[1..])
    else Step(d, input, past)
  }

  /** A volume command that `Step` drops and the source sends again: a
      repeat, on a channel the driver has, of a byte other than 0 and 255. */
  predicate ResentVolume(d: Driver, input: seq<byte>)
  {
    && |input| >= 2 && input[0] != DumpRequest && input[0] / 32 == 2
    && input[0] % 32 < NumChannels
    && d.channels[input[0] % 32].lastVolume == Some(input[1])
    && 0 < input[1] < 255
  }

  /** The interpreter as written waits for the same bytes, consumes the same
      frame and reaches the same state as `Step`; its output differs only
      for a resent volume, which it writes to the chip again. */
  lemma StepAsWrittenDiffers(d: Driver, input: seq<byte>, past: Overread)
    ensures StepAsWritten(d, input, past).NeedMore? <==> Step(d, input, past).NeedMore?
    ensures var w := StepAsWritten(d, input, past);
      var s := Step(d, input, past);
      s.Stepped? ==>
        && w.next == s.next && w.used == s.used
        && (ResentVolume(d, input) ==>
              s.out == [] && w.out == [Address(input[0] % 32), Data(CommandVolume), Data(input[1])])
        && (!ResentVolume(d, input) ==> w.out == s.out)
  {
    if input != [] && input[0] != DumpRequest && input[0] / 32 == 2 && |input| >= 2 {
      var ch := input[0] % 32;
      if ch < NumChannels && d.channels[ch].lastVolume == Some(input[1]) {
        assert d.channels[ch := d.channels[ch].(lastVolume := Some(input[1]))] == d.channels;
      }
    }
  }

  /** The driver's command handler as written. */
  function HandlerAsWritten(past: Overread): (Driver, seq<byte>) -> StepResult
  {
    (d, frame) => StepAsWritten(d, frame, past)
  }

  /** Every command keeps the channel records in range: wave types are
      4-bit, frequencies 16-bit, custom tables at most 512 bytes, and the
      selected debugging channel is 5-bit. */
  lemma StepPreservesValid(d: Driver, input: seq<byte>, past: Overread)
    requires Valid(d) && |input| > 0
    ensures Step(d, input, past).Stepped? ==> Valid(Step(d, input, past).next)
  {
  }

  lemma InitialIsValid()
    ensures Valid(Initial)
  {
  }

  /** The result of feeding the interpreter: its state, what it sent to the
      chips, and the bytes of an incomplete last command still waiting. */
  datatype RunResult = Ran(state: Driver, out: seq<WireOp>, pending: seq<byte>)

  /** The blocking read loop around a one-command interpreter `step`: it
      waits for each command's whole frame, then hands the frame to `step`. */
  function Loop(step: (Driver, seq<byte>) -> StepResult, d: Driver, input: seq<byte>): RunResult
    decreases |input|
  {
    if input == [] then Ran(d, [], [])
    else match FrameLength(input)
      case None => Ran(d, [], input)
      case Some(n) =>
        var s := step(d, input[..n]);
        if s.NeedMore? then Ran(d, [], input)  // never for `Step`: see RunFrame
        else
          var rest := Loop(step, s.next, input[n..]);
          Ran(rest.state, s.out + rest.out, rest.pending)
  }

  /** The driver's command handler for a given `typeconv` over-read. */
  function Handler(past: Overread): (Driver, seq<byte>) -> StepResult
  {
    (d, frame) => Step(d, frame, past)
  }

  /** The driver's main loop, fed `input` from the state `d`. */
  function Run(d: Driver, input: seq<byte>, past: Overread): RunResult
  {
    Loop(Handler(past), d, input)
  }

  /** The driver's main loop as written. */
  function RunAsWritten(d: Driver, input: seq<byte>, past: Overread): RunResult
  {
    Loop(HandlerAsWritten(past), d, input)
  }

  /** As written, the driver ends any input in the same state, with the same
      bytes pending, as the corrected one, and writes at least as much: only
      the chip output differs. */
  lemma {:induction false} RunAsWrittenSameTable(d: Driver, input: seq<byte>, past: Overread)
    ensures RunAsWritten(d, input, past).state == Run(d, input, past).state
    ensures RunAsWritten(d, input, past).pending == Run(d, input, past).pending
    ensures |Run(d, input, past).out| <= |RunAsWritten(d, input, past).out|
    decreases |input|
  {
    if input != [] && FrameLength(input).Some? {
      var n := FrameLength(input).value;
      FrameOfFrame(input);
      StepFollowsFrame(d, input[..n], past);
      StepAsWrittenDiffers(d, input[..n], past);
      var s := Step(d, input[..n], past);
      assert Handler(past)(d, input[..n]) == s;
      assert HandlerAsWritten(past)(d, input[..n]) == StepAsWritten(d, input[..n], past);
      RunAsWrittenSameTable(s.next, input[n..], past);
    }
  }

  /** The input 0x40 128 0x40 128 (volume 128 twice on channel 0): the
      source writes it to the chip twice, the corrected driver once. */
  lemma VolumeRepeatResentAsWritten(past: Overread)
    ensures Run(Initial, [0x40, 128, 0x40, 128], past).out == [Address(0), Data(0x40), Data(128)]
    ensures RunAsWritten(Initial, [0x40, 128, 0x40, 128], past).out
      == [Address(0), Data(0x40), Data(128), Address(0), Data(0x40), Data(128)]
  {
    var input: seq<byte> := [0x40, 128, 0x40, 128];
    var once := [Address(0), Data(0x40), Data(128)];
    assert FrameLength(input) == Some(2) && input[..2] == [0x40, 128] && input[2..] == [0x40, 128];
    var d1 := SetChannel(Initial, 0, Initial.channels[0].(lastVolume := Some(128)));
    assert Step(Initial, [0x40, 128], past) == Stepped(d1, once, 2);
    assert StepAsWritten(Initial, [0x40, 128], past) == Stepped(d1, once, 2);
    assert Step(d1, [0x40, 128], past) == Stepped(d1, [], 2);
    assert StepAsWritten(d1, [0x40, 128], past) == Stepped(d1, once, 2);
    var tail: seq<byte> := [0x40, 128];
    assert FrameLength(tail) == Some(2) && tail[..2] == tail && tail[2..] == [];
    assert Run(d1, tail, past) == Ran(d1, [], []);
    assert RunAsWritten(d1, tail, past) == Ran(d1, once, []);
    assert Run(Initial, input, past).out == once + [];
    assert RunAsWritten(Initial, input, past).out == once + once;
  }

  lemma {:induction false} RunPreservesValid(d: Driver, input: seq<byte>, past: Overread)
    requires Valid(d)
    ensures Valid(Run(d, input, past).state)
    decreases |input|
  {
    if input != [] && FrameLength(input).Some? {
      var n := FrameLength(input).value;
      var s := Step(d, input[..n], past);
      assert Handler(past)(d, input[..n]) == s;
      if s.Stepped? {
        StepPreservesValid(d, input[..n], past);
        RunPreservesValid(s.next, input[n..], past);
      }
    }
  }

  // ---------------------------------------------------------------------
  // Framing: how many bytes each command occupies, independently of state.

  /** The length of the command at the head of `input`, if it has fully arrived. */
  function FrameLength(input: seq<byte>): (r: Option<nat>)
    requires |input| > 0
    ensures r.Some? ==> 1 <= r.value <= |input|
  {
    var cmd := input[0];
    var need :=
      if cmd == DumpRequest then 1
      else match cmd / 32
        case 0 =>
          if |input| < 2 then 2
          else if input[1] % 16 == 7 then
            if |input| < 3 then 3 else 3 + input[2] as int + (if input[1] >= 128 then 256 else 0) + 1
          else if input[1] % 16 == 5 then 3
          else 2
        case 1 => 3
        case 2 => 2
        case 3 => 2
        case 4 => 2
        case 5 => 5
        case _ => 1;
    if need <= |input| then Some(need) else None
  }

  /** Every command consumes exactly its frame, whatever the channel state:
      host and driver cannot fall out of step. */
  lemma StepFollowsFrame(d: Driver, input: seq<byte>, past: Overread)
    requires |input| > 0
    ensures Step(d, input, past).NeedMore? <==> FrameLength(input).None?
    ensures Step(d, input, past).Stepped? ==> Step(d, input, past).used == FrameLength(input).value
  {
  }

  /** A command for channel 16..31 is read in full but changes nothing and
      sends nothing (the debugging class 6 only records the channel). */
  lemma HighChannelIsIgnored(d: Driver, input: seq<byte>, past: Overread)
    requires |input| > 0
    requires input[0] % 32 >= NumChannels && input[0] / 32 != 6
    requires FrameLength(input).Some?
    ensures Step(d, input, past) == Stepped(d, [], FrameLength(input).value)
  {
  }

  /** 0x5C is class 2 (volume) for channel 28, but it is taken as a dump
      request before dispatch: it uses one byte only, so the byte after it is
      read as the next command rather than as a volume. */
  lemma DumpIsNotVolume(d: Driver, rest: seq<byte>, past: Overread)
    ensures DumpRequest / 32 == 2 && DumpRequest % 32 == 28
    ensures Step(d, [DumpRequest] + rest, past) == Stepped(d, [], 1)
  {
  }

  // ---------------------------------------------------------------------
  // Per-command contracts.

  /** The 14-bit frequency the chip assembles from a frequency command's bus bytes. */
  function ChipFrequency(hi: byte, lo: byte): int
  {
    (hi % 64) * 256 + lo
  }

  /** Frequency: an unchanged value is dropped; otherwise the whole 16-bit
      value is stored and exactly the two bus bytes are sent, which carry
      the value modulo 2^14 (bits 14 and 15 never reach the chip). */
  lemma FrequencyContract(d: Driver, ch: nat, lo: byte, hi: byte, past: Overread)
    requires ch < NumChannels
    ensures var f := lo + 256 * hi;
      var r := Step(d, [32 + ch, lo, hi], past);
      && r.Stepped? && r.used == 3
      && (d.channels[ch].frequency == f ==> r.next == d && r.out == [])
      && (d.channels[ch].frequency != f ==>
            && r.next == SetChannel(d, ch, d.channels[ch].(frequency := f))
            && r.out == [Address(ch), Data(0x80 + (f / 256) % 64), Data(f % 256)]
            && (r.out[1].b / 64) == 2
            && ChipFrequency(r.out[1].b, r.out[2].b) == f % 0x4000)
  {
    StepIsFrequency(d, ch, lo, hi, past);
    FrequencyBits(lo, hi);
  }

  lemma StepIsFrequency(d: Driver, ch: nat, lo: byte, hi: byte, past: Overread)
    requires ch < NumChannels
    ensures Step(d, [32 + ch, lo, hi], past) == FrequencyCommand(d, ch, [lo, hi])
  {
    var input := [32 + ch, lo, hi];
    assert input[0] / 32 == 1 && input[0] % 32 == ch && input[0] != DumpRequest;
    assert input[1..] == [lo, hi];
  }

  /** The two bus bytes of a 16-bit frequency carry its low 14 bits. */
  lemma FrequencyBits(lo: byte, hi: byte)
    ensures var f := lo + 256 * hi;
      && f == LittleEndian16(lo, hi)
      && (f / 256) % 64 == hi % 64 && f % 256 == lo
      && (CommandFrequency + hi % 64) / 64 == 2
      && ChipFrequency(CommandFrequency + hi % 64, lo) == f % 0x4000
  {
    var f := lo + 256 * hi;
    assert f / 256 == hi;
    assert f == 0x4000 * (hi / 64) + 256 * (hi % 64) + lo;
  }

  /** Wave type: resending the current type, or a square with the same duty,
      sends nothing; a custom table always goes out.  Otherwise the type is
      stored and its chip code sent, followed by the duty for a square. */
  lemma WaveTypeContract(d: Driver, ch: nat, typef: byte, more: seq<byte>, past: Overread)
    requires ch < NumChannels
    requires typef % 16 != 7 && (typef % 16 == 5 ==> |more| >= 1)
    ensures var t := typef % 16;
      var r := Step(d, [ch, typef] + more, past);
      var c := d.channels[ch];
      && r.Stepped?
      && (t != 5 && c.wave == t ==> r.next == d && r.out == [])
      && (t == 5 && c.wave == 5 && c.duty == Ratio(more[0]) ==> r.next == d && r.out == [])
      && (t != 5 && c.wave != t ==>
            r.next.channels[ch].wave == t && r.out == [Address(ch), Data(ChipWaveCode(t, past))])
      && (t == 5 && !(c.wave == 5 && c.duty == Ratio(more[0])) ==>
            && r.next.channels[ch] == c.(wave := 5, duty := Ratio(more[0]))
            && r.out == [Address(ch), Data(1), Data(more[0])])
  {
    assert ([ch, typef] + more)[1..] == [typef] + more;
  }

  /** Custom wavetable: the length is the next byte plus the type byte's top
      bit as bit 8, plus one, so 1..512 sample bytes follow and are stored
      verbatim; the chip always gets wave code 0. */
  lemma CustomWaveContract(d: Driver, ch: nat, typef: byte, lo: byte, samples: seq<byte>, past: Overread)
    requires ch < NumChannels && typef % 16 == 7
    requires |samples| == lo + (if typef >= 128 then 256 else 0) + 1
    ensures 1 <= |samples| <= 512
    ensures var r := Step(d, [ch, typef, lo] + samples, past);
      && r.Stepped? && r.used == 3 + |samples|
      && r.next.channels[ch] == d.channels[ch].(wave := 7, custom := samples)
      && r.out == [Address(ch), Data(0)]
  {
    var input := [ch, typef, lo] + samples;
    assert input[1..][2..2 + |samples|] == samples;
  }

  /** Volume: `[0x40, vol]` goes out unless `vol` is the last accepted
      volume; the first volume on a channel always goes out. */
  lemma VolumeContract(d: Driver, ch: nat, vol: byte, past: Overread)
    requires ch < NumChannels
    ensures var r := Step(d, [64 + ch, vol], past);
      && r.Stepped? && r.used == 2
      && (d.channels[ch].lastVolume == Some(vol) <==> r.out == [])
      && (r.out != [] ==>
            r.out == [Address(ch), Data(0x40), Data(vol)] && r.next.channels[ch].lastVolume == Some(vol))
      && (d.channels[ch].lastVolume.None? ==> r.out != [])
  {
    assert [64 + ch, vol][1..] == [vol];
  }

  /** Fade: a negative time sends volume 1, a time within 0.000001 of zero
      cancels without output, anything else (NaN included) sends volume 0. */
  lemma FadeContract(d: Driver, ch: nat, time: seq<byte>, past: Overread)
    requires ch < NumChannels && |time| == 4
    ensures var r := Step(d, [160 + ch] + time, past);
      var kind := FadeKindOf(LittleEndian32(time));
      && r.Stepped? && r.used == 5
      && (kind == FadeIn ==> r.out == [Address(ch), Data(0x40), Data(1)] && r.next.channels[ch].fadeDirection == 1)
      && (kind == FadeCancel ==> r.out == [] && !r.next.channels[ch].fading)
      && (kind == FadeOut ==> r.out == [Address(ch), Data(0x40), Data(0)] && r.next.channels[ch].fadeDirection == -1)
      && r.next.channels[ch].lastVolume == d.channels[ch].lastVolume
  {
    assert ([160 + ch] + time)[1..][..4] == time;
  }

  /** Nothing but the addressed channel's record changes, and only channels
      0..15 are ever addressed. */
  lemma StepIsLocal(d: Driver, input: seq<byte>, past: Overread)
    requires |input| > 0
    ensures var r := Step(d, input, past);
      r.Stepped? ==>
        && (forall i :: 0 <= i < NumChannels && i != input[0] % 32 ==> r.next.channels[i] == d.channels[i])
        && (forall k :: 0 <= k < |r.out| && r.out[k].Address? ==> r.out[k].ch == input[0] % 32 < NumChannels)
  {
  }

  // ---------------------------------------------------------------------
  // Running a stream of commands.

  /** A complete command is its own frame. */
  lemma FrameOfFrame(input: seq<byte>)
    requires |input| > 0 && FrameLength(input).Some?
    ensures var n := FrameLength(input).value;
      FrameLength(input[..n]) == Some(n)
  {
    var n := FrameLength(input).value;
    var f := input[..n];
    assert f[0] == input[0];
    if n >= 2 { assert f[1] == input[1]; }
    if n >= 3 { assert f[2] == input[2]; }
  }

  /** `Run` at a complete command steps over exactly that command, as `Step`
      on the whole input does. */
  lemma RunFrame(d: Driver, input: seq<byte>, past: Overread)
    requires |input| > 0 && FrameLength(input).Some?
    ensures var n := FrameLength(input).value;
      var s := Step(d, input, past);
      var rest := Run(s.next, input[n..], past);
      && s == Step(d, input[..n], past)
      && s.Stepped? && s.used == n
      && Run(d, input, past) == Ran(rest.state, s.out + rest.out, rest.pending)
  {
    var n := FrameLength(input).value;
    FrameOfFrame(input);
    StepFollowsFrame(d, input[..n], past);
    StepPrefix(d, input[..n], input[n..], past);
    assert input[..n] + input[n..] == input;
    assert Handler(past)(d, input[..n]) == Step(d, input[..n], past);
  }

  /** One turn of the loop on a complete frame. */
  lemma LoopFirst(step: (Driver, seq<byte>) -> StepResult, d: Driver, input: seq<byte>)
    requires input != [] && FrameLength(input).Some?
    requires step(d, input[..FrameLength(input).value]).Stepped?
    ensures var n := FrameLength(input).value;
      var s := step(d, input[..n]);
      var rest := Loop(step, s.next, input[n..]);
      Loop(step, d, input) == Ran(rest.state, s.out + rest.out, rest.pending)
  {
  }

  /** The first turn of the loop on `a + b` when `a` starts with a complete frame. */
  lemma LoopFirstAppend(step: (Driver, seq<byte>) -> StepResult, d: Driver, a: seq<byte>, b: seq<byte>)
    requires a != [] && FrameLength(a).Some?
    requires step(d, a[..FrameLength(a).value]).Stepped?
    ensures var n := FrameLength(a).value;
      var s := step(d, a[..n]);
      var rest := Loop(step, s.next, a[n..] + b);
      Loop(step, d, a + b) == Ran(rest.state, s.out + rest.out, rest.pending)
  {
    var n := FrameLength(a).value;
    FramePrefix(a, b);
    var c := a + b;
    assert c[..n] == a[..n];
    assert c[n..] == a[n..] + b;
  }

  lemma LoopAppendNil(step: (Driver, seq<byte>) -> StepResult, d: Driver, a: seq<byte>, b: seq<byte>)
    requires a == []
    ensures var ra := Loop(step, d, a);
      var rb := Loop(step, ra.state, b);
      Loop(step, d, a + b) == Ran(rb.state, ra.out + rb.out, rb.pending)
  {
    assert a + b == b;
    assert [] + Loop(step, d, b).out == Loop(step, d, b).out;
  }

  /** Feeding the loop two inputs one after the other is feeding it their
      concatenation, provided the first leaves no command half-read. */
  lemma {:induction false} LoopAppend(step: (Driver, seq<byte>) -> StepResult, d: Driver, a: seq<byte>, b: seq<byte>)
    requires Loop(step, d, a).pending == []
    ensures var ra := Loop(step, d, a);
      var rb := Loop(step, ra.state, b);
      Loop(step, d, a + b) == Ran(rb.state, ra.out + rb.out, rb.pending)
    decreases |a|
  {
    if a == [] {
      LoopAppendNil(step, d, a, b);
    } else {
      var n := FrameLength(a).value;
      var s := step(d, a[..n]);
      LoopFirst(step, d, a);
      var ra := Loop(step, s.next, a[n..]);
      LoopAppend(step, s.next, a[n..], b);
      LoopFirstAppend(step, d, a, b);
      AppendAssoc(s.out, ra.out, Loop(step, ra.state, b).out);
    }
  }

  /** The driver's state and output after complete commands do not depend on
      how the input is split between reads. */
  lemma RunAppend(d: Driver, a: seq<byte>, b: seq<byte>, past: Overread)
    requires Run(d, a, past).pending == []
    ensures var ra := Run(d, a, past);
      var rb := Run(ra.state, b, past);
      Run(d, a + b, past) == Ran(rb.state, ra.out + rb.out, rb.pending)
  {
    LoopAppend(Handler(past), d, a, b);
  }

  lemma FramePrefix(a: seq<byte>, b: seq<byte>)
    requires |a| > 0 && FrameLength(a).Some?
    ensures FrameLength(a + b) == FrameLength(a)
  {
    assert (a + b)[0] == a[0];
    if |a| >= 2 { assert (a + b)[1] == a[1]; }
    if |a| >= 3 { assert (a + b)[2] == a[2]; }
  }

  /** A complete command is decoded the same way whatever follows it. */
  lemma StepPrefix(d: Driver, a: seq<byte>, b: seq<byte>, past: Overread)
    requires |a| > 0 && Step(d, a, past).Stepped?
    ensures Step(d, a + b, past) == Step(d, a, past)
  {
    StepFollowsFrame(d, a, past);
    var n := FrameLength(a).value;
    var input := a + b;
    assert input[..n] == a[..n];
    assert input[0] == a[0];
    if n >= 2 { assert input[1] == a[1]; }
    if n >= 3 { assert input[2] == a[2]; }
    assert input[1..][..n - 1] == a[1..][..n - 1];
    if input[0] / 32 == 0 && input[1] % 16 == 7 {
      var size := n - 3;
      assert input[1..][2..2 + size] == a[1..][2..2 + size];
    }
    if input[0] / 32 == 5 {
      assert input[1..][..4] == a[1..][..4];
    }
  }

  // ---------------------------------------------------------------------
  // Down to the pins.

  /** The pin events of one wire operation. */
  function OpPins(op: WireOp): seq<Wire.PinEvent>
  {
    match op
    case Address(ch) => Wire.Interrupt(ch)
    case Data(b) => Wire.WriteData(b)
  }

  function Pins(ops: seq<WireOp>): seq<Wire.PinEvent>
  {
    if ops == [] then [] else OpPins(ops[0]) + Pins(ops[1..])
  }

  /** What the shift-register chain captures for a sequence of wire operations:
      for each addressed channel, first that channel alone, then nothing. */
  function OpCaptures(op: WireOp): seq<Wire.Register>
  {
    if op.Address? && op.ch < Wire.Stages then [Wire.OneHot(op.ch), Wire.Clear] else []
  }

  function Captures(ops: seq<WireOp>): seq<Wire.Register>
  {
    if ops == [] then [] else OpCaptures(ops[0]) + Captures(ops[1..])
  }

  /** One wire operation on an idle, clear chain. */
  lemma OpSelects(l: Wire.Lines, op: WireOp)
    requires Wire.Idle(l) && l.reg == Wire.Clear
    requires op.Address? ==> op.ch < Wire.Stages
    ensures Wire.Simulate(l, OpPins(op)) == l.(captured := l.captured + OpCaptures(op))
  {
    if op.Address? {
      Wire.InterruptSelectsOnlyChannel(l, op.ch);
    } else {
      Wire.WriteDataLeavesChain(l, op.b);
      assert l.captured + [] == l.captured;
    }
  }

  /** Driving the pins for any operation sequence addressing channels below
      32 selects exactly the addressed chip at each first strobe and leaves
      the chain idle and clear between operations. */
  lemma {:induction false} PinsSelectAddressed(l: Wire.Lines, ops: seq<WireOp>)
    requires Wire.Idle(l) && l.reg == Wire.Clear
    requires forall k :: 0 <= k < |ops| && ops[k].Address? ==> ops[k].ch < Wire.Stages
    ensures Wire.Simulate(l, Pins(ops)) == l.(captured := l.captured + Captures(ops))
    decreases |ops|
  {
    if ops == [] {
      assert l.captured + [] == l.captured;
    } else {
      var first := OpPins(ops[0]);
      Wire.SimulateAppend(l, first, Pins(ops[1..]));
      OpSelects(l, ops[0]);
      var l1 := l.(captured := l.captured + OpCaptures(ops[0]));
      PinsSelectAddressed(l1, ops[1..]);
      AppendAssoc(l.captured, OpCaptures(ops[0]), Captures(ops[1..]));
    }
  }
}
