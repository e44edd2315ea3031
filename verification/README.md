# PSG sound board — a Dafny model

PSG is a programmable sound generator: a Raspberry Pi Pico drives a row of
sound chips, and CraftOS-PC (a ComputerCraft emulator) plays through it via a
Lua `sound` library. This project models the pieces that carry a sound
request from a Lua call to the chips, and proves properties about them:

- **Driver** (`pico-sound-driver/main.cpp`). A serial command interpreter.
  Each command byte holds a 3-bit class and a 5-bit channel, followed by
  argument bytes. It keeps one record per channel (16), drops writes that
  change nothing, and forwards changes to the chips: `interrupt` addresses a
  chip through a 32-stage shift register, and `write_data` puts a byte on an
  8-bit parallel bus. Module `Driver` is the interpreter; module `Wire` is
  the pin-level trace and a simulation of the shift register.
- **Host plugins** (`sound-pico.cpp`, `sound-midi.cpp`). The same Lua API
  over a serial byte stream (32 channels) or over MIDI (16 channels).
  - Module `Plugin` holds the Lua-level logic both share: wave names, duty
    and wavetable checks, interpolation.
  - `HostSerial` models the serial plugin's output bytes; `HostMidi` models
    the MIDI plugin's messages.
  - `SerialLink` composes `HostSerial` with `Driver` and proves that the
    driver's table tracks the plugin's table across any session.
- **BLE MIDI** (`pico-sound-driver/btle.cpp`). The parser that turns a
  Bluetooth LE MIDI write into USB-MIDI packets (module `Ble`).
- **Uploader** (`programmer.cpp`). It splits a firmware file into Intel HEX
  lines and a UF2 image, frames the HEX text as SysEx, and finds the Pico's
  mount point (module `Programmer`).
- **MCP3428 ADC** (`pico-sound-driver/mcp3428.cpp`), module `Adc`; and the
  **HD44780 LCD** behind a PCF8574 I2C expander
  (`pico-sound-driver/hd44780.cpp`), module `Lcd`.

Modelling conventions:

- Bytes are integers 0..255 (`Common.byte`). Bit masks are divisions and
  remainders by powers of two; ORs of disjoint fields are sums.
- C's integer widths are written out where they matter:
  - 16- and 32-bit little-endian reads (`Common.LittleEndian16`, `LittleEndian32`);
  - the `int16_t` cast (`Common.Int16`);
  - the 32-bit UF2 size (`Programmer.Uf2SizeAsWritten`).
- Lua errors (`luaL_error`) are the `Raised` / `Failed` outcomes. They carry
  the state as it stood when the error was raised.
- Floating-point values are exact reals. Conversions to bytes truncate
  (`Plugin.Truncate`, `HostSerial.Scale255`, `HostMidi.Scale127`).
- The driver's fade time is the raw 32-bit pattern of the float. Its
  comparison with ±0.000001 is written on the bits (`Driver.FadeKindOf`).
- I2C is represented by the answers it gives: a sequence of acknowledgements
  and, for the ADC, a sequence of replies. Running out counts as a timeout.
- Values the source leaves uninitialised are parameters:
  - the host plugins' interpolation mode;
  - the BLE parser's `partial` packet;
  - the ADC's `reg` array;
  - the LCD's `isConnected`, as the flag `Lcd.ConstructAsWritten` starts from;
  - the seven bytes after `typeconv` that a wave type of 9..15 reads (`Driver.Overread`).

## Model

| member | source | states |
|---|---|---|
| Common.ToLower | sound-pico.cpp:121-122 | the lowered name has the same length, each character lowered as `tolower` does in the C locale, and no upper-case letter remains |
| Common.ToLowerIdempotent | sound-pico.cpp:122 | lowering an already lowered name changes nothing |
| Common.LittleEndian16 | pico-sound-driver/main.cpp:230-231 | the 16-bit value read by `fread` has the first byte as its low byte and the second as its high byte |
| Common.LittleEndian32 | pico-sound-driver/main.cpp:257-258 | the four bytes read form an unsigned 32-bit value, the number whose base-256 digits, least significant first, they are |
| Common.LittleEndian32Digits | pico-sound-driver/main.cpp:257-258 | each of the four bytes reads back from the value as its base-256 digit |
| Common.Int16 | pico-sound-driver/mcp3428.cpp:24-27 | storing into an `int16_t` gives a value in [-32768, 32767] congruent to the input modulo 2^16 |
| Wire.ClockPulsesRises | pico-sound-driver/main.cpp:112-117 | a loop of n clock pulses raises CLOCK n times and no other line |
| Wire.PrologueRises | pico-sound-driver/main.cpp:103-111 | the start of `interrupt` raises DATA once and CLOCK once |
| Wire.StrobeRises | pico-sound-driver/main.cpp:118-121 | a strobe pulse raises STROBE once and nothing else |
| Wire.InterruptPulseCounts | pico-sound-driver/main.cpp:102-133 | for a channel within the chain, `interrupt` gives 33 clock edges, 2 strobe edges and 1 data edge |
| Wire.PrologueShiftsOne | pico-sound-driver/main.cpp:103-111 | on an idle chain, the start of `interrupt` shifts a single 1 into stage 0 |
| Wire.StrobeCaptures | pico-sound-driver/main.cpp:118-121 | a strobe pulse latches the shift register's contents into the chips |
| Wire.ShiftedToChannel | pico-sound-driver/main.cpp:112-117 | after `ch` further clocks, the single 1 sits at stage `ch` |
| Wire.ShiftedOut | pico-sound-driver/main.cpp:122-127 | the second loop clocks the 1 out of the 32-stage chain, leaving it clear |
| Wire.InterruptSelectsOnlyChannel | pico-sound-driver/main.cpp:102-133 | from an idle, clear chain, `interrupt(ch)` latches exactly the register selecting chip `ch`, then the clear register, and leaves the chain clear |
| Wire.InterruptAddresses | pico-sound-driver/main.cpp:102-133 | the first half of `interrupt` walks a single set stage to position `ch` and the first strobe latches exactly that register |
| Wire.WriteDataPins | pico-sound-driver/main.cpp:136-147 | `write_data` puts bit 7 down to bit 0 on GPIO 6..13 and pulses GPIO 14 once |
| Wire.WriteDataRoundTrip | pico-sound-driver/main.cpp:136-143 | reading the eight bus lines back gives the byte written |
| Wire.WriteDataLeavesChain | pico-sound-driver/main.cpp:135-149 | a bus write does not disturb the shift register or the latched selection |
| Wire.BootClearsChain | pico-sound-driver/main.cpp:165-180 | the start-up sequence clears all 32 stages and leaves the lines idle |
| Wire.LatchShiftsAndCaptures | pico-sound-driver/main.cpp:165-180 | the clock pulse under a held strobe latches the register as it was and shifts one zero in |
| Driver.InitialIsValid | pico-sound-driver/main.cpp:42-62 | the default-initialised channel table satisfies the interpreter invariant |
| Driver.Step | pico-sound-driver/main.cpp:188-283 | the interpreter with the corrected repeat-volume test: one command consumes at least its command byte and no more than the input |
| Driver.StepPreservesValid | pico-sound-driver/main.cpp:188-283 | every command keeps wave types below 16, frequencies 16-bit, custom tables at most 512 entries and fade directions ±1 |
| Driver.RunPreservesValid | pico-sound-driver/main.cpp:188-284 | the invariant holds after any input stream |
| Driver.FrameLength | pico-sound-driver/main.cpp:189-258 | a complete command's length is between 1 and the input length |
| Driver.StepFollowsFrame | pico-sound-driver/main.cpp:189-258 | the interpreter waits for more bytes exactly when the command is incomplete, and otherwise consumes exactly the command's frame |
| Driver.StepPrefix | pico-sound-driver/main.cpp:189-258 | a command's outcome does not depend on the bytes after it |
| Driver.RunFrame | pico-sound-driver/main.cpp:188-197 | running a stream is the first command followed by the rest of the stream |
| Driver.RunAppend | pico-sound-driver/main.cpp:188-284 | running two streams in turn is running their concatenation, once the first leaves nothing pending |
| Driver.HighChannelIsIgnored | pico-sound-driver/main.cpp:197-259 | a command for channel 16..31 (other than class 6, which selects the debugging channel) reads its arguments and changes nothing |
| Driver.DumpIsNotVolume | pico-sound-driver/main.cpp:189-196 | 0x5C is read as a dump request, a single byte with no effect, although its bits spell volume for channel 28 |
| Driver.WaveTypeContract | pico-sound-driver/main.cpp:198-228 | a wave-type change addresses the chip and sends its chip code, plus the duty byte for a square; an unchanged wave (and duty) sends nothing |
| Driver.CustomWaveContract | pico-sound-driver/main.cpp:199-226 | a custom wave reads 1..512 samples whose count comes from the 9-bit size field, stores them and sends chip code 0 |
| Driver.FrequencyContract | pico-sound-driver/main.cpp:229-237 | a changed frequency is stored and sent as 0x80 plus the top six bits, then the low byte, which together give the frequency modulo 2^14; an unchanged one sends nothing |
| Driver.VolumeContract | pico-sound-driver/main.cpp:238-245 | with the corrected repeat test, a volume is sent (as 0x40 then the byte) exactly when it differs from the last volume accepted, and the first one is always sent |
| Driver.FadeContract | pico-sound-driver/main.cpp:256-278 | a negative time beyond the dead band fades in (volume byte 1), a positive one fades out (byte 0), one inside it cancels the fade and sends nothing |
| Driver.FadeKindSign | pico-sound-driver/main.cpp:260-270 | flipping the float's sign bit swaps fade-in and fade-out and keeps the dead band |
| Driver.StepIsLocal | pico-sound-driver/main.cpp:188-283 | a command changes only its own channel's record and addresses only its own chip |
| Driver.PinsSelectAddressed | pico-sound-driver/main.cpp:102-149 | the pin trace of any output latches, for each addressed chip in order, its selection register followed by the clear register |
| Driver.VolumeRepeatNotSuppressedAsWritten | pico-sound-driver/main.cpp:240 | as written, repeating volume 128 is not suppressed, while the intended test suppresses it |
| Driver.VolumeUnchangedExactlyRepeats | pico-sound-driver/main.cpp:240-241 | the corrected test suppresses exactly a repeat of the last accepted byte, never the first volume, and everything the as-written test suppresses |
| Driver.StepAsWrittenDiffers | pico-sound-driver/main.cpp:188-283 | the interpreter as written waits for the same bytes, consumes the same frame and reaches the same state as the corrected one; its output differs exactly for a repeated volume other than 0 and 255, which it sends to the chip again |
| Driver.RunAsWrittenSameTable | pico-sound-driver/main.cpp:188-284 | over any stream the interpreter as written ends with the same table and the same pending bytes as the corrected one, and sends at least as many writes |
| Driver.VolumeRepeatResentAsWritten | pico-sound-driver/main.cpp:238-245 | the stream 40 80 40 80 makes the chip hear volume 128 twice as written, once corrected |
| Plugin.WaveNamesAgree | sound-pico.cpp:123-156 | every wave type's reported name selects that wave type, and every accepted name is lower-case |
| Plugin.PitchedNoiseAliasUnreachable | sound-pico.cpp:155 | the `pitchedNoise` alias is in the as-written list, but no lowered name can equal it |
| Plugin.PitchedNoiseAliasAccepted | sound-pico.cpp:155 | a caller writing `pitchedNoise` gets an error as written, and pitched noise with the corrected alias |
| Plugin.ReadPoints | sound-pico.cpp:139-151 | the points are read up to the first nil; the read succeeds exactly when there are at most 512 and all are numbers in [-1, 1], and then it returns them in order |
| Plugin.ReadWavetable | sound-pico.cpp:137-151 | a wavetable that is not a table is an error; an accepted one has 1..512 points in [-1, 1] |
| Plugin.ApplyWave | sound-pico.cpp:123-156 | the corrected update: an error leaves the record unchanged; a square is accepted exactly with no duty or one in [0, 1]; a custom wave exactly with a valid wavetable; frequency, volume, pan and interpolation are kept |
| Plugin.BadDutyLeavesSquareAsWritten | sound-pico.cpp:128-134 | as written, a duty of 2.0 raises an error but leaves the record saying square; the corrected update leaves it untouched |
| Plugin.ApplyWaveAsWrittenDiffers | sound-pico.cpp:123-156 | the as-written update succeeds exactly when the corrected one does, with the same result; on an error they differ only in the square already being recorded |
| Plugin.SetWave | sound-pico.cpp:121-156 | the corrected setter (the `pitchedNoise` alias reachable, the duty checked before the record changes): an unknown name raises "invalid option" and changes nothing; a known one applies that wave type |
| Plugin.SetWaveAsWritten | sound-pico.cpp:121-156 | as written, a name outside the lowered table raises "invalid option"; the call succeeds exactly when the name is in the table and the corrected update succeeds, with the same record; an error leaves the record as it was or, for a square, switched to square |
| Plugin.SetWaveAsWrittenDiffers | sound-pico.cpp:121-156 | the two setters differ only on a name lowering to "pitchednoise", which as written raises and corrected selects pitched noise, and on a rejected square, which as written is left recorded |
| Plugin.SetWaveIgnoresCase | sound-pico.cpp:121-122 | the name's case does not matter |
| Plugin.GetWave | sound-pico.cpp:89-108 | the reported name selects the stored wave type; a duty is reported exactly for a square, points exactly for a custom wave |
| Plugin.WaveRoundTrip | sound-pico.cpp:89-156 | after a successful set, the getter reports the canonical name, the duty given (0.5 by default) and the points given |
| Plugin.InterpolationAlwaysUnknownAsWritten | sound-pico.cpp:280-284 | as written, the getter's last push is always "unknown"; the corrected getter never answers "unknown" |
| Plugin.GetInterpolationAsWritten | sound-pico.cpp:280-284 | as written, the getter answers "unknown" whatever the mode |
| Plugin.GetInterpolation | sound-pico.cpp:280-284 | the corrected getter answers "none" exactly for no interpolation and "linear" exactly for linear |
| Plugin.Truncate | sound-pico.cpp:304 | `lua_tointeger` truncates toward zero |
| Plugin.SetInterpolation | sound-pico.cpp:296-309 | the corrected setter selects linear exactly for "linear" or a number truncating to 2, and none exactly for "none" or 1; anything else raises and changes nothing |
| Plugin.NumericInterpolationRefusedAsWritten | sound-pico.cpp:296-309 | as written, the number 2 is taken as the string "2" and refused, while the corrected setter selects linear; strings behave the same in both |
| Plugin.SetInterpolationAsWritten | sound-pico.cpp:296-309 | as written, the setter succeeds exactly for the strings "none" and "linear", selecting those modes; every number is refused; an error changes nothing |
| Plugin.InterpolationRoundTrip | sound-pico.cpp:280-309 | after a successful set, the getter answers the name given, or the name of the number given |
| HostSerial.Command | sound-pico.cpp:37 | a command byte holds the class in its top three bits and channel − 1 in its low five |
| HostSerial.CommandInjective | sound-pico.cpp:37 | different (class, channel) pairs give different command bytes |
| HostSerial.Ordinal | sound-pico.cpp:40-50 | the wave type's enum value is below 9; it is 5 exactly for square and 7 exactly for custom |
| HostSerial.OrdinalInjective | sound-pico.cpp:40-50 | different wave types have different enum values |
| HostSerial.Scale255 | sound-pico.cpp:234 | a value in [0, 1] is sent as the truncation of 255 times it |
| HostSerial.Scale255Monotone | sound-pico.cpp:234 | the scaling preserves order and maps 0 to 0 and 1 to 255 |
| HostSerial.Bytes16 | sound-pico.cpp:199-202 | the frequency is written as two bytes that read back as it little-endian |
| HostSerial.Bytes32 | sound-pico.cpp:329 | the fade time's bits are written as four bytes that read back as them |
| HostSerial.WaveBytes | sound-pico.cpp:158-169 | nothing is sent for a custom wave; otherwise the command and the enum value, plus the truncated duty·255 for a square |
| HostSerial.SetWaveType | sound-pico.cpp:117-172 | the corrected setter: a bad channel fails with the table unchanged; otherwise the record is updated as `Plugin.SetWave` says, and on success the wave bytes of the new record are sent |
| HostSerial.SetWaveTypeAsWritten | sound-pico.cpp:117-172 | as written: a bad channel fails with the table unchanged; otherwise the record becomes what `Plugin.SetWaveAsWritten` leaves, so a failure may leave it switched to square, and a success sends the new record's wave bytes |
| HostSerial.SetFrequency | sound-pico.cpp:192-205 | it succeeds exactly for a valid channel and a frequency in 0..65535, then stores it and sends the command and the frequency's two bytes |
| HostSerial.SetVolumeAsWritten | sound-pico.cpp:225-237 | as written, any valid channel and volume in [0, 1] sends the volume command and the scaled byte |
| HostSerial.VolumeOnChannel29IsDumpRequest | sound-pico.cpp:233 | as written, the volume command for channel 29 is the byte 0x5C |
| HostSerial.SetVolume | sound-pico.cpp:225-237 | the corrected setter stores the volume and sends it for channels 1..16, the ones the board serves; it sends nothing for 17..32 |
| HostSerial.SetPan | sound-pico.cpp:257-269 | a pan in [-1, 1] on a valid channel is stored and nothing is sent; an error leaves the table unchanged |
| HostSerial.SetInterpolation | sound-pico.cpp:293-315 | the corrected setter: the record is updated as `Plugin.SetInterpolation` says; on success the command and 1 for linear, 0 otherwise, are sent |
| HostSerial.SetInterpolationAsWritten | sound-pico.cpp:293-315 | as written, the call succeeds exactly on a valid channel with the string "none" or "linear", stores that mode and sends the command and 1 or 0; a number always fails and changes nothing |
| HostSerial.FadeOut | sound-pico.cpp:322-332 | the table is unchanged; on a valid channel the command and the four bytes of the float are sent |
| HostSerial.KeepAliveIsClassSeven | sound-pico.cpp:38 | the periodic reset string is five bytes of command class 7 |
| HostSerial.GetWaveType | sound-pico.cpp:85-110 | an error exactly for a bad channel; otherwise the channel's wave report |
| HostSerial.GetFrequency | sound-pico.cpp:179-185 | an error exactly for a bad channel; otherwise the stored frequency |
| HostSerial.GetVolume | sound-pico.cpp:212-218 | an error exactly for a bad channel; otherwise the stored volume |
| HostSerial.GetPan | sound-pico.cpp:244-250 | an error exactly for a bad channel; otherwise the stored pan |
| HostSerial.GetInterpolation | sound-pico.cpp:276-286 | the corrected getter: an error exactly for a bad channel; otherwise the name of the stored mode |
| HostSerial.GetInterpolationAsWritten | sound-pico.cpp:276-286 | as written, an error exactly for a bad channel; otherwise "unknown" |
| HostSerial.InterpolationReadsBack | sound-pico.cpp:276-315 | after a successful corrected set, the corrected getter names the string given (or "none" for 1, "linear" for 2), while the getter as written answers "unknown" |
| HostSerial.SettersReadBack | sound-pico.cpp:179-269 | after a successful set of frequency, volume or pan, the getter returns the new value and other channels read as before |
| HostSerial.WaveTypeReadsBack | sound-pico.cpp:85-172 | after a successful `setWaveType`, `getWaveType` reports the wave named, its duty and its points |
| SerialLink.FrequencyReachesDriver | pico-sound-driver/main.cpp:229-237 | the plugin's frequency bytes make the driver store the frequency, and it tells the chip exactly when the value changed |
| SerialLink.DriverTakesSquare | pico-sound-driver/main.cpp:210-214 | a square command sets wave 5 with the duty byte |
| SerialLink.DriverTakesWave | pico-sound-driver/main.cpp:215-224 | any other non-custom wave command sets that wave |
| SerialLink.WaveTypeReachesDriver | pico-sound-driver/main.cpp:198-228 | the plugin's wave bytes make the driver store the same wave type and the same duty byte |
| SerialLink.WaveBytesReachDriver | pico-sound-driver/main.cpp:198-228 | whatever record the host stores, the bytes it writes for it set the same wave type (and duty byte for a square) on driver channels 0..15 and leave the driver untouched otherwise |
| SerialLink.VolumeReachesDriver | pico-sound-driver/main.cpp:238-245 | the corrected volume bytes make the driver, with its corrected repeat test, store the scaled byte, telling the chip exactly when it changed |
| SerialLink.InterpolationReachesDriver | pico-sound-driver/main.cpp:251-255 | the interpolation bytes set the driver's mode to the plugin's, with nothing sent to the chips |
| SerialLink.FadeReachesDriver | pico-sound-driver/main.cpp:256-278 | the fade bytes reach the driver as the same float bits and take the branch their value selects |
| SerialLink.IgnoredCommands | pico-sound-driver/main.cpp:197-283 | a stream of class-7 bytes changes nothing and sends nothing |
| SerialLink.KeepAliveIsInert | sound-pico.cpp:350-355 | the plugin's periodic reset string has no effect on the driver |
| SerialLink.InitialAgree | pico-sound-driver/main.cpp:42-62 | a fresh plugin table and a fresh driver agree on every channel the driver serves |
| SerialLink.CallAgrees | pico-sound-driver/main.cpp:188-284 | with the corrected setters and the driver's corrected repeat test, any single plugin call, successful or not, keeps the two tables in agreement and leaves no partial command pending |
| SerialLink.SessionAgrees | pico-sound-driver/main.cpp:188-284 | any session of calls keeps the driver's table in agreement with the plugin's, given the corrected setters (volume only for channels 1..16, duty checked before the record changes, the `pitchedNoise` alias, numeric interpolation) and the corrected repeat test |
| SerialLink.SessionAgreesWithDriverAsWritten | pico-sound-driver/main.cpp:188-284 | the same agreement holds against the driver as written, whose repeat test changes only what the chips hear |
| SerialLink.BadDutyDesyncsAsWritten | sound-pico.cpp:128-134 | as written, a rejected duty on a sine channel writes nothing but leaves the plugin recording square: the tables no longer agree |
| SerialLink.VolumeOnChannel29Desyncs | pico-sound-driver/main.cpp:189-196 | as written, a volume on channel 29 followed by a frequency on channel 1 leaves the driver storing a wrong frequency and a byte pending |
| HostMidi.Send | sound-midi.cpp:88-90 | the message kind is the status byte's high nibble, the MIDI channel (plugin channel − 1) its low nibble |
| HostMidi.Program | sound-midi.cpp:43-53 | the program number is a 7-bit value, 5 exactly for square |
| HostMidi.ProgramInjective | sound-midi.cpp:43-53 | different wave types select different programs |
| HostMidi.Scale127 | sound-midi.cpp:182 | a value in [0, 1] is sent as the truncation of 127 times it |
| HostMidi.WaveMessages | sound-midi.cpp:181-188 | a square sends the duty controller, plus program 5 when the wave was not already square; custom sends nothing; others send their program |
| HostMidi.Announce | sound-midi.cpp:180-189 | nothing is sent when neither wave nor duty changed, and otherwise the wave's messages |
| HostMidi.SetWaveTypeAsWritten | sound-midi.cpp:138-191 | as written: a bad channel, or a name outside the lowered table (`pitchedNoise` included), fails and changes nothing; otherwise the record becomes what `Plugin.SetWaveAsWritten` leaves, a failure perhaps leaving it square, and a success announces the change |
| HostMidi.PitchedNoiseRefusedAsWritten | sound-midi.cpp:178 | as written, "pitchedNoise" is refused on every channel and changes nothing |
| HostMidi.PitchedNoiseAccepted | sound-midi.cpp:178 | the corrected setter takes "pitchedNoise", records pitched noise and, on a change, sends program 22 |
| HostMidi.SetWaveType | sound-midi.cpp:138-191 | the corrected setter: an error changes nothing; success updates the record as `Plugin.SetWave` does and announces the change |
| HostMidi.SetFrequency | sound-midi.cpp:211-226 | a changed frequency is stored and sent as two control changes (LSB 56, MSB 24) of 7 bits each that recombine to the frequency modulo 2^14; an unchanged one sends nothing |
| HostMidi.SetVolume | sound-midi.cpp:246-257 | a volume within 1/128 of the stored one is neither stored nor sent; otherwise it is stored and sent on controller 7 |
| HostMidi.PanValue | sound-midi.cpp:284 | the pan is sent as the truncation of (pan + 1)·63.5, a 7-bit value |
| HostMidi.PanValueEnds | sound-midi.cpp:284 | full right, centre and full left give 0, 63 and 127 |
| HostMidi.SetPan | sound-midi.cpp:277-286 | a pan in [-1, 1] is stored and sent on controller 10 |
| HostMidi.SetInterpolation | sound-midi.cpp:310-329 | the corrected setter: the mode is updated as `Plugin.SetInterpolation` says and nothing is sent |
| HostMidi.SetInterpolationAsWritten | sound-midi.cpp:310-329 | as written, the call succeeds exactly on a valid channel with the string "none" or "linear", stores that mode and sends nothing; a number always fails and changes nothing |
| HostMidi.NumericInterpolationRefusedAsWritten | sound-midi.cpp:315-326 | the documented option 2 is refused as written and selects linear corrected |
| HostMidi.FadeVelocityDecodes | sound-midi.cpp:341-343 | the note-off velocity encodes the time to 1/64 s, and longer fades give lower velocities |
| HostMidi.FadeOut | sound-midi.cpp:336-346 | a time of 0 or less does nothing; otherwise, capped at 127/64, it sends a note-off and sets the stored volume to 0 |
| HostMidi.InitMessages | sound-midi.cpp:384 | initialisation sends mono mode on MIDI channel 0 |
| HostMidi.DeinitMessages | sound-midi.cpp:411 | shutdown sends poly mode on MIDI channel 0 |
| HostMidi.GetWaveType | sound-midi.cpp:106-131 | an error exactly for a bad channel; otherwise the channel's wave report |
| HostMidi.GetFrequency | sound-midi.cpp:198-204 | an error exactly for a bad channel; otherwise the stored frequency |
| HostMidi.GetVolume | sound-midi.cpp:233-239 | an error exactly for a bad channel; otherwise the stored volume |
| HostMidi.GetPan | sound-midi.cpp:264-270 | an error exactly for a bad channel; otherwise the stored pan |
| HostMidi.GetInterpolation | sound-midi.cpp:293-303 | the corrected getter: an error exactly for a bad channel; otherwise the name of the stored mode |
| HostMidi.GetInterpolationAsWritten | sound-midi.cpp:293-303 | as written, an error exactly for a bad channel; otherwise "unknown" |
| HostMidi.InterpolationReadsBack | sound-midi.cpp:293-329 | after a successful corrected set, the corrected getter names the string given (or "none" for 1, "linear" for 2), while the getter as written answers "unknown" |
| HostMidi.SettersReadBack | sound-midi.cpp:246-346 | the stored volume is always within 1/128 of the one asked for; pan reads back as set; a fade leaves volume 0; other channels are unaffected |
| HostMidi.FrequencyRoundTrip | sound-midi.cpp:217-223 | the board reassembles the low 14 bits of a changed frequency, and the getter returns it whole |
| HostMidi.RejectedDutyDesyncsAsWritten | sound-midi.cpp:151-157 | as written, a rejected duty leaves the record square while the board last heard sine, and a following plain `square` call sends nothing |
| HostMidi.AnnounceConveys | sound-midi.cpp:180-189 | if the last program sent on a channel named its old wave, the last one after the announcement names its new wave |
| HostMidi.WaveTypeConveys | sound-midi.cpp:138-191 | the corrected setter keeps every channel's last program in step with its record |
| HostMidi.CallConveys | sound-midi.cpp:138-346 | with the corrected setters, every API call keeps every channel's last program in step with its record |
| HostMidi.OtherCallKeepsWaves | sound-midi.cpp:138-346 | calls other than `setWaveType` send no Program Change and leave every wave type as it was |
| HostMidi.SessionConveys | sound-midi.cpp:138-346 | with the corrected setters, over any session, the last program change on each channel names that channel's wave type (custom excepted) |
| HostMidi.InitialConveyed | sound-midi.cpp:60-71 | a fresh table, with no program sent, is in step |
| Ble.Classify | pico-sound-driver/btle.cpp:75-81 | outside SysEx the code is the status's high nibble; inside, 5, 6 or 7 by where 0xF7 sits, else 4 with SysEx continuing |
| Ble.Finish | pico-sound-driver/btle.cpp:74-85 | completing a packet emits one packet coded by `Classify` and clears its data bytes; a packet holding the end byte leaves SysEx |
| Ble.Feed | pico-sound-driver/btle.cpp:64-106 | the four-state machine: which byte completes a packet, the next state for high and low bytes, and that SysEx mode changes only on 0xF0 as a status or on a completed packet |
| Ble.FeedAllAppend | pico-sound-driver/btle.cpp:63-108 | parsing two chunks in turn is parsing their concatenation |
| Ble.HeaderIgnored | pico-sound-driver/btle.cpp:63 | the first byte of a write (timestamp high) is never looked at |
| Ble.WriteAsWritten | pico-sound-driver/btle.cpp:60-111 | a write to another handle is ignored |
| Ble.Write | pico-sound-driver/btle.cpp:60-111 | the corrected callback also ignores a write other than to the MIDI handle, and one of at most one byte |
| Ble.StampAtBoundary | pico-sound-driver/btle.cpp:64-85 | a timestamp between messages moves to the status state and first completes a pending one-data-byte message, as the corrected flush would |
| Ble.BodyParses | pico-sound-driver/btle.cpp:86-105 | a status and its data bytes fill one packet: a two-data-byte message is completed by its last byte, a Program Change or Channel Pressure stays pending with its code still to be set |
| Ble.OneEvent | pico-sound-driver/btle.cpp:64-106 | a timestamped channel message of either length adds exactly one packet, coded by its status's high nibble, to what the write would hand on |
| Ble.EventsParse | pico-sound-driver/btle.cpp:63-108 | a run of timestamped channel messages of mixed lengths becomes their packets, in order; the parser is left pending exactly when the last message has one data byte |
| Ble.ChannelMessagesRoundTrip | pico-sound-driver/btle.cpp:55-111 | with the corrected flush, a write of channel messages of either length produces exactly their USB-MIDI packets and leaves SysEx off; only a one-data-byte message opening the write is padded with what the packet variable held |
| Ble.FeedAllTracksCode | pico-sound-driver/btle.cpp:74-85 | the open packet always carries the code of the last packet handed on (or its starting code), since only completing a packet sets it |
| Ble.ChannelMessagesAsWritten | pico-sound-driver/btle.cpp:109 | as written, the same write gives the same packets when it ends in a two-data-byte message, and otherwise sends its last, one-data-byte message with the code of the packet before it |
| Ble.ProgramChangeAtWriteEndAsWritten | pico-sound-driver/btle.cpp:109 | the write 80 80 90 3C 64 80 C0 05 sends the Program Change coded 9 as written and 0xC corrected |
| Ble.RunningStatus | pico-sound-driver/btle.cpp:87-105 | two data bytes without a new status reuse the previous status |
| Ble.FeedAllSettled | pico-sound-driver/btle.cpp:63-108 | once the last packet has closed SysEx, that stays true through any further bytes |
| Ble.SysExWriteParses | pico-sound-driver/btle.cpp:63-108 | a short SysEx write whose 0xF7 is its last byte leaves a packet pending when the loop ends |
| Ble.SysExEndAtWriteEndAsWritten | pico-sound-driver/btle.cpp:109 | as written, that pending packet goes out with the stale code 4 and SysEx mode stays on, so the next note-on is also coded 4 |
| Ble.SysExEndAtWriteEnd | pico-sound-driver/btle.cpp:109 | the corrected flush sends it coded 5 and leaves SysEx |
| Ble.EndByteClosesSysEx | pico-sound-driver/btle.cpp:109 | with the corrected flush, a write whose last packet holds 0xF7 always leaves SysEx mode |
| Programmer.Tokens | programmer.cpp:16-25 | the reference split: every token is non-empty and free of delimiters |
| Programmer.FirstNotOf | programmer.cpp:18 | the first position from `from` not holding a delimiter, or the end |
| Programmer.FirstOf | programmer.cpp:20 | the first position from `from` holding a delimiter, or the end |
| Programmer.Split | programmer.cpp:16-25 | the loop returns exactly the reference tokens |
| Programmer.SplitJoin | programmer.cpp:16-25 | joining non-empty, delimiter-free words with a delimiter and splitting gives the words back |
| Programmer.FindMount | programmer.cpp:33-42 | the mount point of the first line whose third field is the device node, or none exactly when no line names it |
| Programmer.ExitCode | programmer.cpp:206-252 | each failure has an exit code in 1..5 |
| Programmer.ExitCodesDistinct | programmer.cpp:206-252 | two failures share an exit code exactly when they are the same kind |
| Programmer.ScanLines | programmer.cpp:220-230 | an empty line is skipped and the next one numbered one higher; a complete line that is neither `UF2` nor starts with ':' fails with its own line number; the collected HEX text starts with ':' and ends with a newline |
| Programmer.BadLineReported | programmer.cpp:220-230 | after any run of HEX and empty lines, the first line that is neither `UF2` nor starts with ':' is reported with its own number (the start number plus the lines before it) |
| Programmer.ScanLinesRoundTrip | programmer.cpp:220-230 | HEX lines followed by a `UF2` line and an image scan back to the HEX text and the image |
| Programmer.ImageOf | programmer.cpp:240-246 | the image starts with "UF2\n" and the 508 bytes read, and holds at most the declared size |
| Programmer.Uf2SizeAsWritten | programmer.cpp:239 | as written, the size is the block count times 512, wrapped to 32 bits |
| Programmer.ZeroSizeImageAsWritten | programmer.cpp:239-246 | block counts 0 and 2^23 both give a 0-byte buffer, which the next lines write 512 bytes into |
| Programmer.ReadUf2AsWritten | programmer.cpp:231-247 | as written, the block fails exactly when short or the magic is wrong, and the size is the wrapped product |
| Programmer.ReadUf2 | programmer.cpp:231-247 | the corrected reader also rejects 0 blocks, and its size is the exact product, holding the data read |
| Programmer.ReadUf2Sound | programmer.cpp:239-246 | a corrected image always has room for its 512-byte header |
| Programmer.PrepareAsWritten | programmer.cpp:206-252 | fewer than two arguments give the usage error, an unopenable file the open error |
| Programmer.Prepare | programmer.cpp:206-252 | the corrected preparation: the same argument errors, and a success holds HEX text or an image, well-formed |
| Programmer.PrepareRoundTrip | programmer.cpp:219-252 | a file of HEX lines, a `UF2` line and a valid block prepares to exactly that text and image |
| Programmer.HexFrame | programmer.cpp:286-294 | the HEX text is framed by F0 00 46 71 00 00 and F7 |
| Programmer.HexFrameRoundTrip | programmer.cpp:286-294 | unframing a HEX frame gives the text back, and the bootloader request is not a HEX frame |
| Programmer.HexFrameIsSysEx | programmer.cpp:286-323 | a HEX frame is valid SysEx exactly when its text is 7-bit, and the bootloader request always is |
| Programmer.Messages | programmer.cpp:284-324 | the HEX frame is sent if there is HEX text, and the bootloader request last if there is an image |
| Programmer.PreparedSendsSomething | programmer.cpp:249-252 | a successful preparation always sends at least one message |
| Adc.ConfigMask | pico-sound-driver/mcp3428.cpp:3-13 | the configuration decodes to the resolution asked (16 or 14, else 12) and the gain asked (2, 4 or 8, else 1) |
| Adc.Select | pico-sound-driver/mcp3428.cpp:20 | the start byte sets bit 7, the channel in bits 5-6 and the configuration in the low bits |
| Adc.Sample | pico-sound-driver/mcp3428.cpp:24-27 | the assembled sample fits an `int16_t` |
| Adc.SampleOfReading | pico-sound-driver/mcp3428.cpp:24-27 | a signed reading comes back scaled to 16 bits: times 1, 4 or 16 for 16, 14 or 12 bits |
| Adc.AwaitReady | pico-sound-driver/mcp3428.cpp:22-23 | reading is repeated until the ready bit clears, and a failed read ends it |
| Adc.ScanFrom | pico-sound-driver/mcp3428.cpp:19-30 | the start bytes go out in channel order; a channel's flag is set exactly when its stored sample changed; a failure stops the pass |
| Adc.ScanFromStoresReadings | pico-sound-driver/mcp3428.cpp:19-30 | one channel is flagged per finished reading (acknowledged start, reply with the ready bit clear), and each such channel holds that reading's sample in the configured resolution |
| Adc.ChangeMaskBits | pico-sound-driver/mcp3428.cpp:28 | bit j of the result is channel j's flag |
| Adc.Scan | pico-sound-driver/mcp3428.cpp:17-32 | after a full pass, bit j is set exactly when channel j's sample changed; after a failure the result is 0, the failing channel and those after it keep their samples; each channel before the failure (all four after a full pass) holds the sample of its finished reading |
| Adc.Get | pico-sound-driver/mcp3428.cpp:34-37 | the stored sample for channels 0..3, otherwise 0 |
| Adc.ScanFlagsWhatGetSees | pico-sound-driver/mcp3428.cpp:17-37 | after a full pass, the flags mark exactly the channels whose `get` answer changed |
| Adc.ScanReadsAll | pico-sound-driver/mcp3428.cpp:17-32 | with every transfer acknowledged and ready, the pass completes and stores the four samples in order |
| Lcd.Frame | pico-sound-driver/hd44780.cpp:61-75 | a byte is sent as six expander bytes: each nibble with EN low, high, low; every byte carries the mode and backlight bits |
| Lcd.FrameRoundTrip | pico-sound-driver/hd44780.cpp:65-73 | the data byte, mode and backlight can be read back from the six bytes |
| Lcd.EncodeRoundTrip | pico-sound-driver/hd44780.cpp:61-75 | the commands and data written can be read back from the expander bytes |
| Lcd.EncodeCarriesFlags | pico-sound-driver/hd44780.cpp:65-73 | every expander byte carries the backlight bit, and RS exactly for data writes |
| Lcd.SendBytes | pico-sound-driver/hd44780.cpp:62-73 | bytes go out in order until one is not acknowledged, which disconnects the display; nothing goes out while disconnected |
| Lcd.SendBytesStops | pico-sound-driver/hd44780.cpp:62-73 | from a connected display, it stays connected exactly when every byte is acknowledged; otherwise the last byte written is the first one refused (or left without an ack) and all before it were acknowledged |
| Lcd.Perform | pico-sound-driver/hd44780.cpp:61-75 | what reaches the expander is a prefix of the encoded writes, all of them while the display stays connected |
| Lcd.PerformAllAcked | pico-sound-driver/hd44780.cpp:61-75 | from a connected display, with every byte acknowledged, all writes go out and the display stays connected |
| Lcd.FailureIsFinal | pico-sound-driver/hd44780.cpp:62-65 | after a failed byte, later writes send nothing |
| Lcd.DisplayControl | pico-sound-driver/hd44780.cpp:91 | the display control command sets D, C and B for display, cursor and blink |
| Lcd.EntryModeAsWritten | pico-sound-driver/hd44780.cpp:93 | as written, the entry mode command carries S for `shift` |
| Lcd.EntryModeInvertedAsWritten | pico-sound-driver/hd44780.cpp:93 | as written, the address counts up exactly when `increment` is false |
| Lcd.EntryMode | pico-sound-driver/hd44780.cpp:93 | the corrected entry mode counts up exactly for `increment` and shifts exactly for `shift` |
| Lcd.MoveDisplayAsWritten | pico-sound-driver/hd44780.cpp:103 | as written, the shift command carries S/C for `shift` |
| Lcd.MoveDisplayInvertedAsWritten | pico-sound-driver/hd44780.cpp:103 | as written, the display moves right exactly when `left` is true |
| Lcd.MoveDisplay | pico-sound-driver/hd44780.cpp:103 | the corrected shift moves right exactly when `left` is false |
| Lcd.SetDisplay | pico-sound-driver/hd44780.cpp:90-95 | with the corrected entry mode: display control, then an entry mode counting up exactly for `increment` |
| Lcd.SetDisplayAsWritten | pico-sound-driver/hd44780.cpp:90-95 | as written: display control, then an entry mode counting up exactly when `increment` is false |
| Lcd.Reset | pico-sound-driver/hd44780.cpp:82-88 | with the corrected entry mode: function set 0x28, display on 0x0C, entry mode 0x06, clear, home |
| Lcd.ResetAsWritten | pico-sound-driver/hd44780.cpp:82-88 | as written: function set 0x28, display on 0x0C, entry mode 0x04 (counting down), clear, home |
| Lcd.Init | pico-sound-driver/hd44780.cpp:53-59 | with the corrected entry mode: 0x03 three times and 0x02, then the reset sequence |
| Lcd.InitAsWritten | pico-sound-driver/hd44780.cpp:53-59 | as written: 0x03 three times and 0x02, then the as-written reset sequence |
| Lcd.InitReceived | pico-sound-driver/hd44780.cpp:53-59 | with every byte acknowledged, the corrected constructor leaves the display connected, and it receives exactly the corrected commands, in an entry mode counting up |
| Lcd.ConstructAsWritten | pico-sound-driver/hd44780.hpp:7 | as written, the constructor starts from whatever `isConnected` holds: if false, nothing at all reaches the expander; the backlight is on; if the display stays connected, it gets the as-written commands |
| Lcd.InitReceivedAsWritten | pico-sound-driver/hd44780.cpp:53-59 | even when that flag happens to be set and every byte is acknowledged, the display is left counting down |
| Lcd.Construct | pico-sound-driver/hd44780.cpp:53-62 | the corrected constructor marks the display connected first: what reaches the expander is a prefix of the encoded commands, all of them while it stays connected |
| Lcd.SetCursor | pico-sound-driver/hd44780.cpp:122-125 | the address command carries the column (six bits) and the row (0x40 for the second) |
| Lcd.SetCursorInjective | pico-sound-driver/hd44780.cpp:122-125 | distinct positions give distinct commands |
| Lcd.WriteCharacter | pico-sound-driver/hd44780.cpp:127-136 | the glyph's CGRAM address, its eight rows as data, then display address 0 |
| Lcd.StrLen | pico-sound-driver/hd44780.cpp:113 | the length is the position of the first zero byte |
| Lcd.WriteText | pico-sound-driver/hd44780.cpp:112-115 | `len` data writes, or up to the terminating zero when `len` is 0, of the string's bytes in order |
| Lcd.SetBacklight | pico-sound-driver/hd44780.cpp:97-100 | the setting is stored and a write of 0 is issued |
| Lcd.BacklightCarried | pico-sound-driver/hd44780.cpp:97-100 | every expander byte written after the change carries the new backlight bit |

## Left out

- The `ChannelInfo` fields that play no part in the command interpreter: `position` (zeroed by a wave-type or frequency command, otherwise only printed), `amplitude` (read only by the float fade arithmetic, left out below) and `lastUpdateTime` (set at start-up, never read). Also the printf dump of the channel table and the microsecond delays: only the order of pin writes is modelled. pico-sound-driver/main.cpp includes the PWM and multicore headers but has no second-core entry and makes no PWM call, so there is no synthesis to model.
- Driver: the random table that pitched noise fills (rand()), sample positions and the float fade arithmetic; the record keeps the fade direction and whether a fade is armed.
- Driver: the pan command is read and ignored, as in the source; class 6 (`currentChannel`) is kept but affects nothing else.
- Driver.CustomWaveContract: a custom wave's samples are stored as the bytes received, not as byte/255 doubles.
- The host plugins' Lua glue: argument type checks other than those modelled (`luaL_checkinteger` on a non-number), `luaopen_sound`, the plugin ABI check.
- The serial plugin's port setup (termios), its output mutex and the SDL timer. The timer's keep-alive string is modelled (`HostSerial.KeepAlive`), its timing is not.
- The MIDI plugin's PortMidi device discovery and timestamps; messages are modelled as the sequence sent.
- HostMidi.SetVolume: the difference is taken between exact reals, not between the stored `float` and the requested value.
- HostMidi.FadeVelocity: `floor` of time·64 is exact; the float rounding of the argument is not modelled.
- BLE: the BTstack setup, `att_read_callback`, `packet_handler`, `con_handle` and what `handle_midi_packet` does with a packet; the packets handed to it are the output.
- Programmer: waiting for the RPI-RP2 drive, the manual mount fallback and its cleanup, the Windows code path, PortMidi device discovery (exit code 6), waiting for the PIC's reply, and writing `firmware.uf2`. The device node "major:minor" is a parameter.
- Programmer.FindMount: a mountinfo line with fewer than five fields is treated as not matching; the source indexes past the end of the vector there.
- Programmer.ScanLines: a last line without a newline is never examined, because the loop stops at end of file; the model follows that.
- Programmer.ReadUf2: the image holds the bytes present, up to the declared size; a short file is not an error in the source either.
- Adc: the constructor's configuration write (its acknowledgement is ignored in the source); the busy-wait on the ready bit is bounded by the finite reply sequence.
- Lcd: the `time` busy field and the sleeps; the I2C address and port.
- Driver.Step: uses the corrected repeat-volume test; the source's `float`/`double` comparison resends a repeated volume other than 0 and 255. The as-written interpreter is `Driver.StepAsWritten`, tied to it by `Driver.StepAsWrittenDiffers`.
- Driver.VolumeContract: states the corrected test; as written a repeated volume 1..254 is sent again (`Driver.VolumeRepeatResentAsWritten`).
- SerialLink.VolumeReachesDriver: assumes the driver's corrected repeat test; as written the chip may hear the volume again, with the same table (`Driver.RunAsWrittenSameTable`).
- SerialLink.CallAgrees: holds for the corrected setters and driver; as written a rejected duty breaks agreement (`SerialLink.BadDutyDesyncsAsWritten`) and a volume on channel 29 desynchronises the stream (`SerialLink.VolumeOnChannel29Desyncs`).
- SerialLink.SessionAgrees: depends on four corrections to the serial plugin: volume sent only for channels 1..16, the duty checked before the record changes, the reachable `pitchedNoise` alias and numeric interpolation. Without the last two the plugin refuses those calls, and a refused call writes nothing. The driver's repeat test does not matter (`SerialLink.SessionAgreesWithDriverAsWritten`).
- HostMidi.SessionConveys: holds for the corrected `setWaveType`; as written a rejected duty leaves the board on the old program (`HostMidi.RejectedDutyDesyncsAsWritten`).
- Lcd.SetDisplay, Lcd.Reset, Lcd.Init and Lcd.InitReceived: state the corrected entry mode 0x06; the source sends 0x04 (`Lcd.ResetAsWritten`, `Lcd.InitReceivedAsWritten`).
- Lcd.InitReceived: is about the corrected constructor, which sets `isConnected` before its first write; as written the flag is uninitialised (`Lcd.ConstructAsWritten`).
- Lcd.PerformAllAcked: requires a connected display, which only the corrected constructor guarantees.
- The firmware's MIDI synthesis engine (envelopes, voice allocation, instruments) is not part of these files and is not modelled.

## Findings

| source | as written | input that shows it | evidently intended | confidence | as-written member | corrected member |
|---|---|---|---|---|---|---|
| pico-sound-driver/main.cpp:240 | the `float` `newAmplitude` is compared with the `double` `vol / 255.0`, which are equal only for 0 and 255 | volume 128 sent twice on one channel: the second is not suppressed | a repeated volume byte is dropped | not executed; high | Driver.VolumeRepeatResentAsWritten | Driver.VolumeUnchangedExactlyRepeats |
| sound-pico.cpp:155 | the alias `pitchedNoise` is compared after the name was lowered | `setWaveType(1, "pitchedNoise")` raises "invalid option" | the camel-case alias selects pitched noise | not executed; high | Plugin.PitchedNoiseAliasUnreachable | Plugin.PitchedNoiseAliasAccepted |
| sound-pico.cpp:280-284 | the switch has no `break`, so every case falls through to "unknown" | `getInterpolation(1)` after `setInterpolation(1, "linear")` | the getter names the mode | not executed; high | Plugin.InterpolationAlwaysUnknownAsWritten | Plugin.InterpolationRoundTrip |
| sound-pico.cpp:298-309 | `lua_isstring` is true for numbers, so the numeric branch never runs | `setInterpolation(1, 2)` raises "invalid option 2" | 1 and 2 select none and linear, as the doc comment says | not executed; high | Plugin.NumericInterpolationRefusedAsWritten | Plugin.InterpolationRoundTrip |
| sound-pico.cpp:128-134 | the wave type is set to square before the duty is checked | `setWaveType(1, "square", 2.0)` raises, yet `getWaveType(1)` then reports square | a rejected call changes nothing | not executed; high | Plugin.BadDutyLeavesSquareAsWritten | Plugin.ApplyWave |
| sound-midi.cpp:151-157 | the same early commit, and the change test at line 180 then sees no change | on a sine channel, `setWaveType(1, "square", 2.0)` and then `setWaveType(1, "square")`: no program change is ever sent, so the board keeps playing sine | the board hears every wave the record takes | not executed; high | HostMidi.RejectedDutyDesyncsAsWritten | HostMidi.SessionConveys |
| sound-midi.cpp:178 | the alias `pitchedNoise` is compared after the name was lowered | `setWaveType(1, "pitchedNoise")` raises "invalid option" | the camel-case alias selects pitched noise | not executed; high | HostMidi.PitchedNoiseRefusedAsWritten | HostMidi.PitchedNoiseAccepted |
| sound-midi.cpp:297-301 | the switch has no `break`, so every case falls through to "unknown" | `getInterpolation(1)` after `setInterpolation(1, "linear")` | the getter names the mode | not executed; high | HostMidi.GetInterpolationAsWritten | HostMidi.InterpolationReadsBack |
| sound-midi.cpp:315-326 | `lua_isstring` is true for numbers, so the numeric branch never runs | `setInterpolation(1, 2)` raises "invalid option 2" | 1 and 2 select none and linear, as the doc comment says | not executed; high | HostMidi.NumericInterpolationRefusedAsWritten | HostMidi.InterpolationReadsBack |
| sound-pico.cpp:233 | `command(2, 29)` is 0x5C, the driver's dump request | `setVolume(29, 32/255)` then `setFrequency(1, 0x1234)`: the driver dumps, reads 32 as a frequency command, and stores 0x3420 | volumes for channels the board does not serve do not corrupt the stream | not executed; high | SerialLink.VolumeOnChannel29Desyncs | SerialLink.SessionAgrees |
| pico-sound-driver/btle.cpp:109 | the packet still pending at the end of a write is sent with its stale code, and SysEx mode is not updated | the write 80 80 F0 01 02 80 F7 sends F7 coded 4 and stays in SysEx, so the next note-on is also coded 4 | the pending packet is completed like any other | not executed; medium | Ble.SysExEndAtWriteEndAsWritten | Ble.EndByteClosesSysEx |
| pico-sound-driver/btle.cpp:109 | a Program Change or Channel Pressure ending a write is still pending and is sent with the code of the packet before it | the write 80 80 90 3C 64 80 C0 05 sends the Program Change coded 9, as a Note On | the pending packet is coded by its own status, 0xC | not executed; medium | Ble.ProgramChangeAtWriteEndAsWritten | Ble.ChannelMessagesRoundTrip |
| programmer.cpp:239 | `buf32[5] * 512` is computed in 32 bits | a UF2 block count of 0 or 2^23 allocates 0 bytes, then writes 512 into the buffer | the size is the block count times 512, and an empty image is rejected | not executed; medium | Programmer.ZeroSizeImageAsWritten | Programmer.ReadUf2Sound |
| pico-sound-driver/hd44780.cpp:93 | `increment` selects ENTRYRIGHT (0x00), clearing I/D | `setDisplay()` with defaults makes the address count down | `increment` sets I/D so the cursor moves right | not executed; medium | Lcd.EntryModeInvertedAsWritten | Lcd.EntryMode |
| pico-sound-driver/hd44780.cpp:103 | `left` selects 0x04, which is R/L = right | `moveDisplay(true, true)` moves the display right | `left` moves left | not executed; medium | Lcd.MoveDisplayInvertedAsWritten | Lcd.MoveDisplay |
| pico-sound-driver/hd44780.hpp:7 | `isConnected` is never initialised, and `writeData` returns at once while it is false (hd44780.cpp:62) | a board whose flag starts false: the constructor sends nothing and every later write is dropped | the constructor marks the display connected before the first write | not executed; medium | Lcd.ConstructAsWritten | Lcd.InitReceived |
