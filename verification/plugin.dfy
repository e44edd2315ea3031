/**
 * The channel bookkeeping both CraftOS-PC sound plugins share
 * (sound-pico.cpp and sound-midi.cpp): the `ChannelInfo` record, the Lua
 * argument checks, wave-type names, wavetable reading and the interpolation
 * getter and setter.  Each plugin adds its own output on top (see
 * HostSerial and HostMidi).
 *
 * A `luaL_error` unwinds the call at once, so an operation either completes
 * or raises an error; in the second case the record is returned as the
 * source leaves it, which is not always untouched.
 */
module Plugin {
  import opened Common

  /** `WaveType`, in enum order. */
  datatype WaveType = NoWave | Sine | Triangle | Sawtooth | RSawtooth | Square | Noise | Custom | PitchedNoise

  /** A Lua argument.  `Text` carries the number the string converts to,
      if it is a numeral; `Table` lists the values at keys 1, 2, ... (a
      `Nil` entry is an absent key); `OtherValue` is a boolean, function
      or userdata. */
  datatype Arg = Nil | Number(x: real) | Text(s: string, numeral: Option<real>) | Table(items: seq<Arg>) | OtherValue

  /** `lua_isnumber`: numbers and numeral strings. */
  predicate IsNumber(a: Arg)
  {
    a.Number? || (a.Text? && a.numeral.Some?)
  }

  /** `lua_tonumber` on a value `lua_isnumber` accepts. */
  function ToNumber(a: Arg): real
    requires IsNumber(a)
  {
    if a.Number? then a.x else a.numeral.value
  }

  /** `lua_isstring`: strings, and numbers, which convert to strings. */
  predicate IsString(a: Arg)
  {
    a.Number? || a.Text?
  }

  /** The reasons an operation raises a Lua error. */
  datatype Error =
    | ChannelOutOfRange
    | ExpectedNumber
    | DutyOutOfRange
    | ExpectedTable
    | NoPoints
    | TableTooLarge
    | PointNotNumber(index: nat)
    | PointOutOfRange(index: nat)
    | InvalidOption
    | ExpectedStringOrNumber
    | FrequencyOutOfRange
    | VolumeOutOfRange
    | PanOutOfRange

  /** One `ChannelInfo`.  The float fields are exact reals here. */
  datatype Channel = Channel(
    wave: WaveType,
    duty: real,
    frequency: int,
    amplitude: real,
    pan: real,
    custom: seq<real>,
    interpolation: Interpolation)

  /** A freshly allocated `ChannelInfo`.  `interpolation` has no
      initialiser, so its first value is whatever the allocator left. */
  function InitialChannel(mode: Interpolation): Channel
  {
    Channel(NoWave, 0.5, 0, 1.0, 0.0, [], mode)
  }

  /** Every entry point checks the channel number against 1..`count` first. */
  predicate ValidChannel(ch: int, count: nat)
  {
    1 <= ch <= count
  }

  /** The outcome of an operation on one record. */
  datatype Update = Updated(channel: Channel) | Raised(channel: Channel, error: Error)

  // ---------------------------------------------------------------------
  // Wave-type names.

  /** The name `getWaveType` reports for each type. */
  function CanonicalName(w: WaveType): string
  {
    match w
    case NoWave => "none"
    case Sine => "sine"
    case Triangle => "triangle"
    case Sawtooth => "sawtooth"
    case RSawtooth => "rsawtooth"
    case Square => "square"
    case Noise => "noise"
    case Custom => "custom"
    case PitchedNoise => "pitched_noise"
  }

  /** The names `setWaveType` recognises, as written: it compares the
      lower-cased argument with these, one of which has an upper-case letter. */
  function WaveNamedAsWritten(lowered: string): Option<WaveType>
  {
    if lowered == "none" then Some(NoWave)
    else if lowered == "sine" then Some(Sine)
    else if lowered == "triangle" then Some(Triangle)
    else if lowered == "sawtooth" then Some(Sawtooth)
    else if lowered == "rsawtooth" then Some(RSawtooth)
    else if lowered == "square" then Some(Square)
    else if lowered == "noise" then Some(Noise)
    else if lowered == "custom" then Some(Custom)
    else if lowered == "pitched_noise" || lowered == "pitchedNoise" || lowered == "pnoise" then Some(PitchedNoise)
    else None
  }

  /** The recognised names with the `pitchedNoise` alias written in the
      lower case the comparison needs. */
  function WaveNamed(lowered: string): Option<WaveType>
  {
    if lowered == "pitchednoise" then Some(PitchedNoise)
    else if lowered == "pitchedNoise" then None
    else WaveNamedAsWritten(lowered)
  }

  predicate NoUpper(s: string)
  {
    forall i :: 0 <= i < |s| ==> !IsUpper(s[i])
  }

  /** `getWaveType` and `setWaveType` agree on names: each canonical name
      is recognised as its own type, and every recognised name is lower
      case, so it is reachable after lower-casing, in any letter case. */
  lemma WaveNamesAgree(w: WaveType, name: string)
    ensures WaveNamed(CanonicalName(w)) == Some(w)
    ensures WaveNamed(name).Some? ==> NoUpper(name) && ToLower(name) == name
  {
    CanonicalNameRecognised(w);
    if WaveNamed(name).Some? {
      RecognisedNameIsLower(name);
      ToLowerOfLower(name);
    }
  }

  lemma CanonicalNameRecognised(w: WaveType)
    ensures WaveNamed(CanonicalName(w)) == Some(w)
  {
  }

  lemma RecognisedNameIsLower(name: string)
    requires WaveNamed(name).Some?
    ensures NoUpper(name)
  {
  }

  /** As written, the `pitchedNoise` alias is listed but no argument
      reaches it: lower-casing never produces its capital N. */
  lemma PitchedNoiseAliasUnreachable(name: string)
    ensures WaveNamedAsWritten("pitchedNoise") == Some(PitchedNoise)
    ensures ToLower(name) != "pitchedNoise"
  {
    if |name| == 12 {
      ToLowerHasNoUpper(name, 7);
      assert IsUpper("pitchedNoise"[7]);
    }
  }

  /** The argument "pitchedNoise" is refused as written and accepted by the
      corrected table. */
  lemma PitchedNoiseAliasAccepted()
    ensures WaveNamedAsWritten(ToLower("pitchedNoise")) == None
    ensures WaveNamed(ToLower("pitchedNoise")) == Some(PitchedNoise)
  {
    LowerPitchedNoise();
    LoweredAliasRefusedAsWritten();
  }

  lemma LoweredAliasRefusedAsWritten()
    ensures WaveNamedAsWritten("pitchednoise") == None
    ensures WaveNamed("pitchednoise") == Some(PitchedNoise)
  {
    var s := "pitchednoise";
    assert |s| == 12;
    assert s != "pitchedNoise" by {
      assert s[7] != "pitchedNoise"[7];
    }
  }

  lemma LowerPitchedNoise()
    ensures ToLower("pitchedNoise") == "pitchednoise"
  {
    var s := "pitchedNoise";
    var t := "pitchednoise";
    forall i | 0 <= i < 12
      ensures t[i] == ToLowerChar(s[i])
    {
    }
    ToLowerPointwise(s, t);
  }

  // ---------------------------------------------------------------------
  // Wavetables.

  /** Where the Lua sequence starting at key `i + 1` ends: the index of the
      first absent key. */
  function SequenceEnd(items: seq<Arg>, i: nat): (r: nat)
    requires i <= |items|
    ensures i <= r <= |items|
    ensures forall k :: i <= k < r ==> !items[k].Nil?
    ensures r == |items| || items[r].Nil?
    decreases |items| - i
  {
    if i == |items| || items[i].Nil? then i else SequenceEnd(items, i + 1)
  }

  /** A wavetable point: a number in [-1, 1]. */
  predicate IsPoint(a: Arg)
  {
    IsNumber(a) && -1.0 <= ToNumber(a) <= 1.0
  }

  /**
   * The wavetable loop from key `i + 1` on: it stops at the first absent
   * key, and raises an error for a 513th point, a non-number or a number
   * outside [-1, 1], whichever it meets first.
   */
  function ReadPoints(items: seq<Arg>, i: nat): (r: Result<seq<real>, Error>)
    requires i <= |items| && i <= 512
    ensures r.Ok? <==>
      SequenceEnd(items, i) <= 512 && forall k :: i <= k < SequenceEnd(items, i) ==> IsPoint(items[k])
    ensures r.Ok? ==>
      && |r.value| == SequenceEnd(items, i) - i
      && forall k :: 0 <= k < |r.value| ==> r.value[k] == ToNumber(items[i + k])
    ensures r.Err? && r.error == TableTooLarge ==>
      SequenceEnd(items, i) > 512 && forall k :: i <= k < 512 ==> IsPoint(items[k])
    decreases |items| - i
  {
    if i == |items| || items[i].Nil? then Ok([])
    else if i >= 512 then Err(TableTooLarge)
    else if !IsNumber(items[i]) then Err(PointNotNumber(i + 1))
    else
      var x := ToNumber(items[i]);
      if x < -1.0 || x > 1.0 then Err(PointOutOfRange(i + 1))
      else match ReadPoints(items, i + 1)
        case Err(e) => Err(e)
        case Ok(rest) => Ok([x] + rest)
  }

  /** The custom branch: a table whose first key is present, read to its end. */
  function ReadWavetable(extra: Arg): (r: Result<seq<real>, Error>)
    ensures r.Ok? ==> 1 <= |r.value| <= 512 && forall k :: 0 <= k < |r.value| ==> -1.0 <= r.value[k] <= 1.0
    ensures !extra.Table? ==> r == Err(ExpectedTable)
  {
    if !extra.Table? then Err(ExpectedTable)
    else if |extra.items| == 0 || extra.items[0].Nil? then Err(NoPoints)
    else
      var r := ReadPoints(extra.items, 0);
      assert r.Ok? ==> forall k :: 0 <= k < |r.value| ==> IsPoint(extra.items[k]);
      r
  }

  // ---------------------------------------------------------------------
  // setWaveType and getWaveType on one record.

  /** `setWaveType` once the name is recognised, as written: a square wave
      is recorded before its duty argument is checked, so a bad duty raises
      an error with the record already switched to square. */
  function ApplyWaveAsWritten(c: Channel, w: WaveType, extra: Arg): Update
  {
    if w == Square then
      var c1 := c.(wave := Square);
      if extra.Nil? then Updated(c1.(duty := 0.5))
      else if !IsNumber(extra) then Raised(c1, ExpectedNumber)
      else if ToNumber(extra) < 0.0 || ToNumber(extra) > 1.0 then Raised(c1, DutyOutOfRange)
      else Updated(c1.(duty := ToNumber(extra)))
    else ApplyWave(c, w, extra)
  }

  /**
   * `setWaveType` once the name is recognised, with every argument checked
   * before the record changes.  A square takes a duty in [0, 1], 0.5 when
   * omitted; a custom wave takes a wavetable; other types ignore `extra`.
   */
  function ApplyWave(c: Channel, w: WaveType, extra: Arg): (r: Update)
    ensures r.Raised? ==> r.channel == c
    ensures r.Updated? ==>
      && r.channel.wave == w && r.channel.frequency == c.frequency
      && r.channel.amplitude == c.amplitude && r.channel.pan == c.pan
      && r.channel.interpolation == c.interpolation
    ensures r.Updated? && w == Square ==> 0.0 <= r.channel.duty <= 1.0
    ensures w == Square ==> (r.Updated? <==> extra.Nil? || (IsNumber(extra) && 0.0 <= ToNumber(extra) <= 1.0))
    ensures w == Custom ==> (r.Updated? <==> ReadWavetable(extra).Ok?)
    ensures w != Square && w != Custom ==> r == Updated(c.(wave := w))
  {
    if w == Square then
      if extra.Nil? then Updated(c.(wave := Square, duty := 0.5))
      else if !IsNumber(extra) then Raised(c, ExpectedNumber)
      else if ToNumber(extra) < 0.0 || ToNumber(extra) > 1.0 then Raised(c, DutyOutOfRange)
      else Updated(c.(wave := Square, duty := ToNumber(extra)))
    else if w == Custom then
      match ReadWavetable(extra)
      case Err(e) => Raised(c, e)
      case Ok(points) => Updated(c.(wave := Custom, custom := points))
    else Updated(c.(wave := w))
  }

  /** A rejected duty leaves the record reporting a square wave as written;
      the corrected update leaves it as it was. */
  lemma BadDutyLeavesSquareAsWritten(c: Channel)
    requires c.wave == Sine
    ensures ApplyWaveAsWritten(c, Square, Number(2.0)) == Raised(c.(wave := Square), DutyOutOfRange)
    ensures ApplyWave(c, Square, Number(2.0)) == Raised(c, DutyOutOfRange)
  {
  }

  /** The two differ only on a square wave's rejected duty. */
  lemma ApplyWaveAsWrittenDiffers(c: Channel, w: WaveType, extra: Arg)
    ensures ApplyWaveAsWritten(c, w, extra).Updated? <==> ApplyWave(c, w, extra).Updated?
    ensures ApplyWave(c, w, extra).Updated? ==> ApplyWaveAsWritten(c, w, extra) == ApplyWave(c, w, extra)
    ensures ApplyWave(c, w, extra).Raised? ==>
      ApplyWaveAsWritten(c, w, extra).error == ApplyWave(c, w, extra).error
      && ApplyWaveAsWritten(c, w, extra).channel == (if w == Square then c.(wave := Square) else c)
  {
  }

  /** `setWaveType` on one record: lower-case the name, look it up, apply. */
  function SetWave(c: Channel, name: string, extra: Arg): (r: Update)
    ensures WaveNamed(ToLower(name)).None? ==> r == Raised(c, InvalidOption)
    ensures WaveNamed(ToLower(name)).Some? ==> r == ApplyWave(c, WaveNamed(ToLower(name)).value, extra)
  {
    match WaveNamed(ToLower(name))
    case None => Raised(c, InvalidOption)
    case Some(w) => ApplyWave(c, w, extra)
  }

  /** `setWaveType` on one record as written: the name table with its
      unreachable alias, and a square recorded before its duty is checked. */
  function SetWaveAsWritten(c: Channel, name: string, extra: Arg): (r: Update)
    ensures WaveNamedAsWritten(ToLower(name)).None? ==> r == Raised(c, InvalidOption)
    ensures r.Updated? <==>
      WaveNamedAsWritten(ToLower(name)).Some? && ApplyWave(c, WaveNamedAsWritten(ToLower(name)).value, extra).Updated?
    ensures r.Updated? ==> r == ApplyWave(c, WaveNamedAsWritten(ToLower(name)).value, extra)
    ensures r.Raised? ==>
      r.channel == c || (WaveNamedAsWritten(ToLower(name)) == Some(Square) && r.channel == c.(wave := Square))
  {
    match WaveNamedAsWritten(ToLower(name))
    case None => Raised(c, InvalidOption)
    case Some(w) =>
      ApplyWaveAsWrittenDiffers(c, w, extra);
      ApplyWaveAsWritten(c, w, extra)
  }

  /** The as-written and corrected `setWaveType` part only on the name
      "pitchednoise" after lowering, which only the corrected table knows,
      and on a rejected square duty, which only the as-written one
      records. */
  lemma SetWaveAsWrittenDiffers(c: Channel, name: string, extra: Arg)
    ensures ToLower(name) == "pitchednoise" ==>
      SetWaveAsWritten(c, name, extra) == Raised(c, InvalidOption)
      && SetWave(c, name, extra) == Updated(c.(wave := PitchedNoise))
    ensures ToLower(name) != "pitchednoise" ==>
      && (SetWaveAsWritten(c, name, extra).Updated? <==> SetWave(c, name, extra).Updated?)
      && (SetWave(c, name, extra).Updated? ==> SetWaveAsWritten(c, name, extra) == SetWave(c, name, extra))
      && (SetWave(c, name, extra).Raised? ==>
            SetWaveAsWritten(c, name, extra).error == SetWave(c, name, extra).error
            && SetWaveAsWritten(c, name, extra).channel
                 == if ToLower(name) == "square" then c.(wave := Square) else c)
  {
    PitchedNoiseAliasUnreachable(name);
    LoweredAliasRefusedAsWritten();
    var lowered := ToLower(name);
    if lowered != "pitchednoise" {
      assert WaveNamed(lowered) == WaveNamedAsWritten(lowered);
      match WaveNamed(lowered)
      case None =>
      case Some(w) => ApplyWaveAsWrittenDiffers(c, w, extra);
    }
  }

  /** What `getWaveType` returns: the name, plus the duty for a square and
      the points for a custom wave. */
  datatype WaveReport = WaveReport(name: string, duty: Option<real>, points: Option<seq<real>>)

  function GetWave(c: Channel): (r: WaveReport)
    ensures WaveNamed(r.name) == Some(c.wave)
    ensures r.duty.Some? <==> c.wave == Square
    ensures r.points.Some? <==> c.wave == Custom
  {
    WaveNamesAgree(c.wave, "");
    var name := CanonicalName(c.wave);
    if c.wave == Square then WaveReport(name, Some(c.duty), None)
    else if c.wave == Custom then WaveReport(name, None, Some(c.custom))
    else WaveReport(name, None, None)
  }

  /** `getWaveType` reads back what `setWaveType` stored: the type under its
      canonical name, the duty (0.5 when omitted) and the wavetable. */
  lemma WaveRoundTrip(c: Channel, name: string, extra: Arg)
    requires SetWave(c, name, extra).Updated?
    ensures var report := GetWave(SetWave(c, name, extra).channel);
      && report.name == CanonicalName(WaveNamed(ToLower(name)).value)
      && WaveNamed(report.name) == WaveNamed(ToLower(name))
      && (report.duty.Some? ==> report.duty.value == if extra.Nil? then 0.5 else ToNumber(extra))
      && (report.points.Some? ==> report.points == Some(ReadWavetable(extra).value))
  {
  }

  /** Names are matched regardless of letter case. */
  lemma SetWaveIgnoresCase(c: Channel, name: string, extra: Arg)
    ensures SetWave(c, name, extra) == SetWave(c, ToLower(name), extra)
  {
    ToLowerIdempotent(name);
  }

  // ---------------------------------------------------------------------
  // Interpolation.

  /** `getInterpolation` as written: the cases fall through, so the value
      left on top of the stack is always "unknown". */
  function GetInterpolationAsWritten(c: Channel): (r: string)
    ensures r == "unknown"
  {
    var pushed := match c.interpolation
      case NoInterpolation => ["none", "linear", "unknown"]
      case Linear => ["linear", "unknown"];
    pushed[|pushed| - 1]
  }

  /** With a `break` after each case, the mode's own name. */
  function GetInterpolation(c: Channel): (r: string)
    ensures r == "none" <==> c.interpolation == NoInterpolation
    ensures r == "linear" <==> c.interpolation == Linear
  {
    match c.interpolation
    case NoInterpolation => "none"
    case Linear => "linear"
  }

  lemma InterpolationAlwaysUnknownAsWritten(c: Channel)
    ensures GetInterpolationAsWritten(c) == "unknown"
    ensures GetInterpolation(c) != "unknown"
  {
  }

  /** C's truncation of a number to an integer (`lua_tointeger`). */
  function Truncate(x: real): (r: int)
    ensures x >= 0.0 ==> r as real <= x < r as real + 1.0
    ensures x < 0.0 ==> r as real - 1.0 < x <= r as real
  {
    if x >= 0.0 then x.Floor else -((-x).Floor)
  }

  /**
   * `setInterpolation` as written.  The string test comes first and
   * `lua_isstring` holds for numbers too, so a number is compared as its
   * numeral (never "none" or "linear") and rejected: the branch for 1 and
   * 2 is never reached.
   */
  function SetInterpolationAsWritten(c: Channel, arg: Arg): (r: Update)
    ensures r.Raised? ==> r.channel == c
    ensures r.Updated? <==> arg.Text? && (arg.s == "none" || arg.s == "linear")
    ensures r.Updated? ==> r.channel == c.(interpolation := if arg.s == "linear" then Linear else NoInterpolation)
    ensures arg.Number? ==> r == Raised(c, InvalidOption)
  {
    if !IsNumber(arg) && !IsString(arg) then Raised(c, ExpectedStringOrNumber)
    else if arg.Text? && arg.s == "none" then Updated(c.(interpolation := NoInterpolation))
    else if arg.Text? && arg.s == "linear" then Updated(c.(interpolation := Linear))
    else if IsString(arg) then Raised(c, InvalidOption)
    else
      // The `lua_tointeger` switch: every argument left is a number, and
      // every number already passed the string test.
      assert false; Raised(c, InvalidOption)
  }

  /** `setInterpolation` with numbers dispatched on their value, as the
      documented options "none", "linear", 1 and 2 intend. */
  function SetInterpolation(c: Channel, arg: Arg): (r: Update)
    ensures r.Raised? ==> r.channel == c
    ensures r.Updated? ==> r.channel == c.(interpolation := r.channel.interpolation)
    ensures r.Updated? && r.channel.interpolation == Linear <==>
      (arg.Text? && arg.s == "linear") || (arg.Number? && Truncate(arg.x) == 2)
    ensures r.Updated? && r.channel.interpolation == NoInterpolation <==>
      (arg.Text? && arg.s == "none") || (arg.Number? && Truncate(arg.x) == 1)
  {
    if arg.Number? then
      if Truncate(arg.x) == 1 then Updated(c.(interpolation := NoInterpolation))
      else if Truncate(arg.x) == 2 then Updated(c.(interpolation := Linear))
      else Raised(c, InvalidOption)
    else if arg.Text? && arg.s == "none" then Updated(c.(interpolation := NoInterpolation))
    else if arg.Text? && arg.s == "linear" then Updated(c.(interpolation := Linear))
    else if arg.Text? then Raised(c, InvalidOption)
    else Raised(c, ExpectedStringOrNumber)
  }

  /** As written, the documented numeric options are refused; corrected,
      they select their mode.  Strings behave the same in both. */
  lemma NumericInterpolationRefusedAsWritten(c: Channel, arg: Arg)
    ensures SetInterpolationAsWritten(c, Number(2.0)) == Raised(c, InvalidOption)
    ensures SetInterpolation(c, Number(2.0)) == Updated(c.(interpolation := Linear))
    ensures arg.Text? ==> SetInterpolationAsWritten(c, arg) == SetInterpolation(c, arg)
  {
  }

  /** Reading the mode back gives the name it was set with. */
  lemma InterpolationRoundTrip(c: Channel, arg: Arg)
    requires SetInterpolation(c, arg).Updated?
    ensures var name := GetInterpolation(SetInterpolation(c, arg).channel);
      && (arg.Text? ==> name == arg.s)
      && (arg.Number? ==> (name == "none" <==> Truncate(arg.x) == 1))
  {
  }
}
