/**
 * The serial plugin and the driver together: what the driver makes of the
 * bytes the plugin writes.  The plugin numbers channels 1..32 and the
 * driver 0..15, so plugin channel `ch` is driver channel `ch - 1`, and
 * plugin channels 17..32 reach no chip.
 */
module SerialLink {
  import opened Common
  import opened Plugin
  import HostSerial
  import Driver

  /** Nothing on the line changes nothing. */
  lemma RunNothing(d: Driver.Driver, past: Driver.Overread)
    ensures Driver.Run(d, [], past) == Driver.Ran(d, [], [])
  {
  }

  /** A write holding exactly one whole command is one step of the driver. */
  lemma RunOne(d: Driver.Driver, input: seq<byte>, past: Driver.Overread)
    requires |input| > 0 && Driver.FrameLength(input) == Some(|input|)
    ensures Driver.Step(d, input, past).Stepped?
    ensures Driver.Run(d, input, past)
      == Driver.Ran(Driver.Step(d, input, past).next, Driver.Step(d, input, past).out, [])
  {
    Driver.RunFrame(d, input, past);
    var s := Driver.Step(d, input, past);
    assert input[|input|..] == [];
    RunNothing(s.next, past);
    assert s.out + [] == s.out;
  }

  // ---------------------------------------------------------------------
  // Command by command.

  /** A frequency reaches driver channel `ch - 1` whole, and the chip gets
      it modulo 2^14 unless the driver already had it; for channels 17..32
      the driver reads the three bytes and does nothing. */
  lemma FrequencyReachesDriver(t: HostSerial.Table, ch: int, f: int, d: Driver.Driver, past: Driver.Overread)
    requires HostSerial.SetFrequency(t, ch, f).Done?
    ensures var r := Driver.Run(d, HostSerial.SetFrequency(t, ch, f).out, past);
      && r.pending == []
      && (ch > Driver.NumChannels ==> r == Driver.Ran(d, [], []))
      && (ch <= Driver.NumChannels ==>
            && r.state == Driver.SetChannel(d, ch - 1, d.channels[ch - 1].(frequency := f))
            && (r.out == [] <==> d.channels[ch - 1].frequency == f)
            && (r.out != [] ==>
                  && r.out[0] == Driver.Address(ch - 1)
                  && Driver.ChipFrequency(r.out[1].b, r.out[2].b) == f % 0x4000))
  {
    var out := HostSerial.SetFrequency(t, ch, f).out;
    var lo, hi := out[1], out[2];
    assert out == [32 + (ch - 1), lo, hi];
    assert lo as int + 256 * hi as int == f;
    RunOne(d, out, past);
    if ch <= Driver.NumChannels {
      Driver.FrequencyContract(d, ch - 1, lo, hi, past);
      if d.channels[ch - 1].frequency == f {
        assert d.channels[ch - 1].(frequency := f) == d.channels[ch - 1];
      }
    } else {
      Driver.HighChannelIsIgnored(d, out, past);
    }
  }

  /** The driver on a square-wave command for one of its channels. */
  lemma DriverTakesSquare(d: Driver.Driver, ch: nat, duty: byte, past: Driver.Overread)
    requires ch < Driver.NumChannels
    ensures var r := Driver.Run(d, [ch, 5, duty], past);
      var old_ := d.channels[ch];
      && r.pending == []
      && r.state == Driver.SetChannel(d, ch, old_.(wave := 5, duty := Driver.Ratio(duty)))
      && (r.out == [] || r.out == [Driver.Address(ch), Driver.Data(Driver.TypeConv[5]), Driver.Data(duty)])
  {
    var input := [ch, 5, duty];
    assert input == [ch, 5] + [duty];
    RunOne(d, input, past);
    Driver.WaveTypeContract(d, ch, 5, [duty], past);
    var old_ := d.channels[ch];
    if old_.wave == 5 && old_.duty == Driver.Ratio(duty) {
      assert old_.(wave := 5, duty := Driver.Ratio(duty)) == old_;
    }
  }

  /** The driver on a wave-type command other than square or custom. */
  lemma DriverTakesWave(d: Driver.Driver, ch: nat, ord: byte, past: Driver.Overread)
    requires ch < Driver.NumChannels && ord < 9 && ord != 5 && ord != 7
    ensures var r := Driver.Run(d, [ch, ord], past);
      && r.pending == []
      && r.state == Driver.SetChannel(d, ch, d.channels[ch].(wave := ord))
      && (r.out == [] || r.out == [Driver.Address(ch), Driver.Data(Driver.TypeConv[ord])])
  {
    var input := [ch, ord];
    assert input == [ch, ord] + [];
    RunOne(d, input, past);
    Driver.WaveTypeContract(d, ch, ord, [], past);
    if d.channels[ch].wave == ord {
      assert d.channels[ch].(wave := ord) == d.channels[ch];
    }
  }

  /** A wave type other than custom reaches driver channel `ch - 1` as its
      enum value, with the duty byte for a square; the chip gets the
      `typeconv` code, never a byte from past the table.  A custom wave and
      channels 17..32 leave the driver as it was. */
  lemma WaveTypeReachesDriver(t: HostSerial.Table, ch: int, name: string, extra: Arg, d: Driver.Driver, past: Driver.Overread)
    requires HostSerial.SetWaveType(t, ch, name, extra).Done?
    ensures var o := HostSerial.SetWaveType(t, ch, name, extra);
      var c := o.channels[ch - 1];
      var r := Driver.Run(d, o.out, past);
      && r.pending == []
      && (ch > Driver.NumChannels || c.wave == Custom ==> r == Driver.Ran(d, [], []))
      && (ch <= Driver.NumChannels && c.wave != Custom ==>
            var old_ := d.channels[ch - 1];
            && r.state == Driver.SetChannel(d, ch - 1, old_.(
                 wave := HostSerial.Ordinal(c.wave),
                 duty := if c.wave == Square then Driver.Ratio(HostSerial.Scale255(c.duty)) else old_.duty))
            && (r.out == [] || (|r.out| >= 2 && r.out[0] == Driver.Address(ch - 1)
                  && r.out[1] == Driver.Data(Driver.TypeConv[HostSerial.Ordinal(c.wave)]))))
  {
    var o := HostSerial.SetWaveType(t, ch, name, extra);
    WaveBytesReachDriver(ch, o.channels[ch - 1], d, past);
  }

  /** The driver on the bytes `setWaveType` writes for a channel record. */
  lemma WaveBytesReachDriver(ch: int, c: Channel, d: Driver.Driver, past: Driver.Overread)
    requires ValidChannel(ch, HostSerial.NumChannels)
    requires c.wave == Square ==> 0.0 <= c.duty <= 1.0
    ensures var r := Driver.Run(d, HostSerial.WaveBytes(ch, c), past);
      && r.pending == []
      && (ch > Driver.NumChannels || c.wave == Custom ==> r == Driver.Ran(d, [], []))
      && (ch <= Driver.NumChannels && c.wave != Custom ==>
            var old_ := d.channels[ch - 1];
            && r.state == Driver.SetChannel(d, ch - 1, old_.(
                 wave := HostSerial.Ordinal(c.wave),
                 duty := if c.wave == Square then Driver.Ratio(HostSerial.Scale255(c.duty)) else old_.duty))
            && (r.out == [] || (|r.out| >= 2 && r.out[0] == Driver.Address(ch - 1)
                  && r.out[1] == Driver.Data(Driver.TypeConv[HostSerial.Ordinal(c.wave)]))))
  {
    var out := HostSerial.WaveBytes(ch, c);
    if c.wave == Custom {
      RunNothing(d, past);
    } else if ch > Driver.NumChannels {
      RunOne(d, out, past);
      Driver.HighChannelIsIgnored(d, out, past);
    } else if c.wave == Square {
      SquareBytesReachDriver(ch, c, d, past);
    } else {
      OtherBytesReachDriver(ch, c, d, past);
    }
  }

  lemma SquareBytesReachDriver(ch: int, c: Channel, d: Driver.Driver, past: Driver.Overread)
    requires 1 <= ch <= Driver.NumChannels && c.wave == Square && 0.0 <= c.duty <= 1.0
    ensures var r := Driver.Run(d, HostSerial.WaveBytes(ch, c), past);
      && r.pending == []
      && r.state == Driver.SetChannel(d, ch - 1, d.channels[ch - 1].(wave := 5, duty := Driver.Ratio(HostSerial.Scale255(c.duty))))
      && (r.out == [] || r.out == [Driver.Address(ch - 1), Driver.Data(Driver.TypeConv[5]), Driver.Data(HostSerial.Scale255(c.duty))])
  {
    assert HostSerial.WaveBytes(ch, c) == [ch - 1, 5, HostSerial.Scale255(c.duty)];
    DriverTakesSquare(d, ch - 1, HostSerial.Scale255(c.duty), past);
  }

  lemma OtherBytesReachDriver(ch: int, c: Channel, d: Driver.Driver, past: Driver.Overread)
    requires 1 <= ch <= Driver.NumChannels && c.wave != Square && c.wave != Custom
    ensures var r := Driver.Run(d, HostSerial.WaveBytes(ch, c), past);
      var ord := HostSerial.Ordinal(c.wave);
      && r.pending == []
      && r.state == Driver.SetChannel(d, ch - 1, d.channels[ch - 1].(wave := ord, duty := d.channels[ch - 1].duty))
      && (r.out == [] || r.out == [Driver.Address(ch - 1), Driver.Data(Driver.TypeConv[ord])])
  {
    var ord := HostSerial.Ordinal(c.wave);
    assert HostSerial.WaveBytes(ch, c) == [ch - 1, ord];
    DriverTakesWave(d, ch - 1, ord, past);
    assert d.channels[ch - 1].(wave := ord) == d.channels[ch - 1].(wave := ord, duty := d.channels[ch - 1].duty);
  }

  /** A volume reaches driver channel `ch - 1` as its byte, and the chip
      gets it unless it repeats the last one; channels 17..32 write nothing. */
  lemma VolumeReachesDriver(t: HostSerial.Table, ch: int, amp: real, d: Driver.Driver, past: Driver.Overread)
    requires HostSerial.SetVolume(t, ch, amp).Done?
    ensures var r := Driver.Run(d, HostSerial.SetVolume(t, ch, amp).out, past);
      && r.pending == []
      && (ch > Driver.NumChannels ==> r == Driver.Ran(d, [], []))
      && (ch <= Driver.NumChannels ==>
            var vol := HostSerial.Scale255(amp);
            && r.state == Driver.SetChannel(d, ch - 1, d.channels[ch - 1].(lastVolume := Some(vol)))
            && (r.out == [] <==> d.channels[ch - 1].lastVolume == Some(vol))
            && (r.out != [] ==> r.out == [Driver.Address(ch - 1), Driver.Data(0x40), Driver.Data(vol)]))
  {
    var out := HostSerial.SetVolume(t, ch, amp).out;
    if ch > Driver.NumChannels {
      RunNothing(d, past);
    } else {
      var vol := HostSerial.Scale255(amp);
      assert out == [64 + (ch - 1), vol];
      RunOne(d, out, past);
      Driver.VolumeContract(d, ch - 1, vol, past);
      if d.channels[ch - 1].lastVolume == Some(vol) {
        assert d.channels[ch - 1].(lastVolume := Some(vol)) == d.channels[ch - 1];
      }
    }
  }

  /** The interpolation mode reaches driver channel `ch - 1`; it is kept,
      not sent to the chips. */
  lemma InterpolationReachesDriver(t: HostSerial.Table, ch: int, arg: Arg, d: Driver.Driver, past: Driver.Overread)
    requires HostSerial.SetInterpolation(t, ch, arg).Done?
    ensures var o := HostSerial.SetInterpolation(t, ch, arg);
      var r := Driver.Run(d, o.out, past);
      && r.pending == [] && r.out == []
      && (ch > Driver.NumChannels ==> r.state == d)
      && (ch <= Driver.NumChannels ==>
            r.state == Driver.SetChannel(d, ch - 1, d.channels[ch - 1].(interpolation := o.channels[ch - 1].interpolation)))
  {
    var o := HostSerial.SetInterpolation(t, ch, arg);
    var b := o.out[1];
    assert o.out == [128 + (ch - 1), b];
    RunOne(d, o.out, past);
    assert o.out[1..] == [b];
  }

  /** A fade reaches driver channel `ch - 1` as the float's bit pattern:
      its sign and size choose fade in, cancel or fade out exactly as the
      plugin's value does, and only the fade fields change. */
  lemma FadeReachesDriver(t: HostSerial.Table, ch: int, bits: int, d: Driver.Driver, past: Driver.Overread)
    requires 0 <= bits < 0x1_0000_0000
    requires HostSerial.FadeOut(t, ch, bits).Done?
    ensures var r := Driver.Run(d, HostSerial.FadeOut(t, ch, bits).out, past);
      && r.pending == []
      && (ch > Driver.NumChannels ==> r == Driver.Ran(d, [], []))
      && (ch <= Driver.NumChannels ==>
            var kind := Driver.FadeKindOf(bits);
            var c := r.state.channels[ch - 1];
            && r.state == Driver.SetChannel(d, ch - 1, d.channels[ch - 1].(fadeDirection := c.fadeDirection, fading := c.fading))
            && (kind == Driver.FadeIn ==> r.out == [Driver.Address(ch - 1), Driver.Data(0x40), Driver.Data(1)])
            && (kind == Driver.FadeCancel ==> r.out == [] && !c.fading)
            && (kind == Driver.FadeOut ==> r.out == [Driver.Address(ch - 1), Driver.Data(0x40), Driver.Data(0)]))
  {
    var out := HostSerial.FadeOut(t, ch, bits).out;
    var time := out[1..];
    assert out == [160 + (ch - 1)] + time;
    RunOne(d, out, past);
    if ch <= Driver.NumChannels {
      Driver.FadeContract(d, ch - 1, time, past);
      assert out[1..][..4] == time;
    } else {
      Driver.HighChannelIsIgnored(d, out, past);
    }
  }

  /** Bytes of command class 7 are read one at a time and ignored. */
  lemma {:induction false} IgnoredCommands(d: Driver.Driver, input: seq<byte>, past: Driver.Overread)
    requires forall k :: 0 <= k < |input| ==> input[k] / 32 == 7
    ensures Driver.Run(d, input, past) == Driver.Ran(d, [], [])
    decreases |input|
  {
    if input == [] {
      RunNothing(d, past);
    } else {
      Driver.RunFrame(d, input, past);
      IgnoredCommands(d, input[1..], past);
    }
  }

  /** The plugin's keep-alive bytes change nothing in the driver. */
  lemma KeepAliveIsInert(d: Driver.Driver, past: Driver.Overread)
    ensures Driver.Run(d, HostSerial.KeepAlive, past) == Driver.Ran(d, [], [])
  {
    IgnoredCommands(d, HostSerial.KeepAlive, past);
  }

  // ---------------------------------------------------------------------
  // Whole sessions.

  /** A plugin record and the driver's record of the same channel agree:
      same frequency and interpolation, the volume byte last accepted is the
      plugin's volume scaled, and unless the plugin holds a custom wave
      (which it never sends) the same wave type and square duty. */
  predicate ChannelAgrees(h: Plugin.Channel, c: Driver.Channel)
  {
    && c.frequency == h.frequency
    && c.interpolation == h.interpolation
    && 0.0 <= h.amplitude <= 1.0
    && (c.lastVolume.Some? ==> c.lastVolume.value == HostSerial.Scale255(h.amplitude))
    && (h.wave != Custom ==> c.wave == HostSerial.Ordinal(h.wave))
    && (h.wave == Square ==> 0.0 <= h.duty <= 1.0 && c.duty == Driver.Ratio(HostSerial.Scale255(h.duty)))
  }

  /** Plugin and driver agree on every channel the driver has. */
  predicate Agree(t: HostSerial.Table, d: Driver.Driver)
  {
    forall i :: 0 <= i < Driver.NumChannels ==> ChannelAgrees(t[i], d.channels[i])
  }

  /** Both start in agreement when the plugin's uninitialised interpolation
      field starts as the driver's zero-initialised one. */
  lemma InitialAgree()
    ensures Agree(HostSerial.InitialTable(NoInterpolation), Driver.Initial)
  {
  }

  /** A failed call writes nothing and changes no record. */
  lemma FailedCallAgrees(t: HostSerial.Table, call: HostSerial.Call, d: Driver.Driver, past: Driver.Overread)
    requires Agree(t, d) && HostSerial.Perform(t, call).Failed?
    ensures var o := HostSerial.Perform(t, call);
      var r := Driver.Run(d, HostSerial.Written(o), past);
      r.pending == [] && Agree(o.channels, r.state)
  {
    RunNothing(d, past);
  }

  lemma FrequencyAgrees(t: HostSerial.Table, ch: int, f: int, d: Driver.Driver, past: Driver.Overread)
    requires Agree(t, d) && HostSerial.SetFrequency(t, ch, f).Done?
    ensures var o := HostSerial.SetFrequency(t, ch, f);
      var r := Driver.Run(d, o.out, past);
      r.pending == [] && Agree(o.channels, r.state)
  {
    FrequencyReachesDriver(t, ch, f, d, past);
  }

  lemma WaveTypeAgrees(t: HostSerial.Table, ch: int, name: string, extra: Arg, d: Driver.Driver, past: Driver.Overread)
    requires Agree(t, d) && HostSerial.SetWaveType(t, ch, name, extra).Done?
    ensures var o := HostSerial.SetWaveType(t, ch, name, extra);
      var r := Driver.Run(d, o.out, past);
      r.pending == [] && Agree(o.channels, r.state)
  {
    WaveTypeReachesDriver(t, ch, name, extra, d, past);
  }

  lemma VolumeAgrees(t: HostSerial.Table, ch: int, amp: real, d: Driver.Driver, past: Driver.Overread)
    requires Agree(t, d) && HostSerial.SetVolume(t, ch, amp).Done?
    ensures var o := HostSerial.SetVolume(t, ch, amp);
      var r := Driver.Run(d, o.out, past);
      r.pending == [] && Agree(o.channels, r.state)
  {
    VolumeReachesDriver(t, ch, amp, d, past);
  }

  lemma InterpolationAgrees(t: HostSerial.Table, ch: int, arg: Arg, d: Driver.Driver, past: Driver.Overread)
    requires Agree(t, d) && HostSerial.SetInterpolation(t, ch, arg).Done?
    ensures var o := HostSerial.SetInterpolation(t, ch, arg);
      var r := Driver.Run(d, o.out, past);
      r.pending == [] && Agree(o.channels, r.state)
  {
    InterpolationReachesDriver(t, ch, arg, d, past);
  }

  lemma FadeAgrees(t: HostSerial.Table, ch: int, bits: HostSerial.FloatBits, d: Driver.Driver, past: Driver.Overread)
    requires Agree(t, d) && HostSerial.FadeOut(t, ch, bits).Done?
    ensures var o := HostSerial.FadeOut(t, ch, bits);
      var r := Driver.Run(d, o.out, past);
      r.pending == [] && Agree(o.channels, r.state)
  {
    FadeReachesDriver(t, ch, bits, d, past);
  }

  /** Every call leaves plugin and driver in agreement, with no command
      half-read. */
  lemma CallAgrees(t: HostSerial.Table, call: HostSerial.Call, d: Driver.Driver, past: Driver.Overread)
    requires Agree(t, d)
    ensures var o := HostSerial.Perform(t, call);
      var r := Driver.Run(d, HostSerial.Written(o), past);
      r.pending == [] && Agree(o.channels, r.state)
  {
    var o := HostSerial.Perform(t, call);
    if o.Failed? {
      FailedCallAgrees(t, call, d, past);
    } else {
      match call
      case WaveTypeCall(ch, name, extra) => WaveTypeAgrees(t, ch, name, extra, d, past);
      case FrequencyCall(ch, f) => FrequencyAgrees(t, ch, f, d, past);
      case VolumeCall(ch, amp) => VolumeAgrees(t, ch, amp, d, past);
      case PanCall(ch, pan) => RunNothing(d, past);
      case InterpolationCall(ch, arg) => InterpolationAgrees(t, ch, arg, d, past);
      case FadeCall(ch, bits) => FadeAgrees(t, ch, bits, d, past);
      case Tick => KeepAliveIsInert(d, past);
    }
  }

  /**
   * Whatever the plugin is asked to do, the driver, fed everything it wrote,
   * ends with no command half-read and in agreement with the plugin on
   * every channel it has.
   */
  lemma {:induction false} SessionAgrees(t: HostSerial.Table, calls: seq<HostSerial.Call>, d: Driver.Driver, past: Driver.Overread)
    requires Agree(t, d)
    ensures var s := HostSerial.Session(t, calls);
      var r := Driver.Run(d, s.wire, past);
      r.pending == [] && Agree(s.table, r.state)
    decreases |calls|
  {
    if calls == [] {
      RunNothing(d, past);
    } else {
      var o := HostSerial.Perform(t, calls[0]);
      CallAgrees(t, calls[0], d, past);
      var first := Driver.Run(d, HostSerial.Written(o), past);
      var rest := HostSerial.Session(o.channels, calls[1..]);
      SessionAgrees(o.channels, calls[1..], first.state, past);
      Driver.RunAppend(d, HostSerial.Written(o), rest.wire, past);
    }
  }

  /** The driver's as-written volume test resends some repeated volumes,
      but keeps the same table, so the agreement holds against it too. */
  lemma SessionAgreesWithDriverAsWritten(t: HostSerial.Table, calls: seq<HostSerial.Call>, d: Driver.Driver, past: Driver.Overread)
    requires Agree(t, d)
    ensures var s := HostSerial.Session(t, calls);
      var r := Driver.RunAsWritten(d, s.wire, past);
      r.pending == [] && Agree(s.table, r.state)
  {
    SessionAgrees(t, calls, d, past);
    Driver.RunAsWrittenSameTable(d, HostSerial.Session(t, calls).wire, past);
  }

  /** As written, a rejected square duty on a channel playing sine writes
      nothing, yet leaves the plugin's record saying square: plugin and
      driver no longer agree. */
  lemma BadDutyDesyncsAsWritten(t: HostSerial.Table, d: Driver.Driver, name: string, past: Driver.Overread)
    requires Agree(t, d) && t[0].wave == Sine && name == "square"
    ensures var o := HostSerial.SetWaveTypeAsWritten(t, 1, name, Number(2.0));
      var r := Driver.Run(d, HostSerial.Written(o), past);
      && o.Failed? && HostSerial.Written(o) == [] && r.state == d
      && o.channels[0].wave == Square
      && !Agree(o.channels, r.state)
  {
    ToLowerOfLower(name);
    RunNothing(d, past);
    var o := HostSerial.SetWaveTypeAsWritten(t, 1, name, Number(2.0));
    assert o.channels[0] == t[0].(wave := Square);
    assert !ChannelAgrees(o.channels[0], d.channels[0]);
  }

  /** As written, a volume for channel 29 followed by a frequency for
      channel 1 leaves the driver with a frequency the plugin never set and
      a byte stuck half-read: `[0x5C, 32]` is a dump request, then a
      frequency command `0x20` whose argument bytes are the next command. */
  lemma VolumeOnChannel29Desyncs(past: Driver.Overread)
    ensures HostSerial.Scale255(32.0 / 255.0) == 32
    ensures HostSerial.Command(2, 29) == 0x5C && HostSerial.Command(1, 1) == 0x20
    ensures HostSerial.Bytes16(0x1234) == [0x34, 0x12]
    ensures var r := Driver.Run(Driver.Initial, [0x5C, 32] + [0x20, 0x34, 0x12], past);
      r.state.channels[0].frequency == 0x3420 && r.pending == [0x12]
  {
    var input := [0x5C, 32] + [0x20, 0x34, 0x12];
    Driver.RunFrame(Driver.Initial, input, past);
    var d1 := Driver.Step(Driver.Initial, input, past).next;
    assert input[1..] == [32, 0x20, 0x34, 0x12];
    Driver.RunFrame(d1, input[1..], past);
    var d2 := Driver.Step(d1, input[1..], past).next;
    assert input[1..][3..] == [0x12];
  }
}
