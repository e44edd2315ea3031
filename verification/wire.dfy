/**
 * Pin-level view of the driver board's wire transport (pico-sound-driver/main.cpp).
 *
 * The sound chips sit behind a 32-stage shift register driven by three lines
 * (DATA, CLOCK, STROBE), and share an 8-bit parallel bus (GPIO 6..13) that
 * is sampled on a pulse of GPIO 14.  `interrupt` addresses one chip through
 * the shift register; `write_data` puts one byte on the parallel bus.
 * Microsecond delays are not modelled: only the order of pin writes is.
 */
module Wire {
  import opened Common

  const PinStrobe: nat := 19
  const PinData: nat := 20
  const PinClock: nat := 21
  /** Pulsed once per byte to make the parallel bus valid. */
  const PinBusValid: nat := 14
  /** Length of the shift-register chain. */
  const Stages: nat := 32

  datatype Pin = Led | Gpio(n: nat)
  datatype PinEvent = Put(pin: Pin, level: bool)

  function ClockPulse(): seq<PinEvent>
  {
    [Put(Gpio(PinClock), true), Put(Gpio(PinClock), false)]
  }

  /** `n` iterations of a loop whose body is one clock pulse. */
  function ClockPulses(n: nat): (r: seq<PinEvent>)
    ensures |r| == 2 * n
  {
    if n == 0 then [] else ClockPulse() + ClockPulses(n - 1)
  }

  function StrobePulse(): seq<PinEvent>
  {
    [Put(Gpio(PinStrobe), true), Put(Gpio(PinStrobe), false)]
  }

  /** `interrupt(channel)`: clock a single 1 into the chain, walk it to
      position `ch`, strobe, walk it out of the chain, strobe again. */
  function Interrupt(ch: nat): seq<PinEvent>
  {
    Prologue() + ClockPulses(ch) + StrobePulse()
    + ClockPulses(if ch < Stages then Stages - ch else 0) + StrobePulse()
    + [Put(Led, true)]
  }

  /** `write_data(b)`: bit 7 on GPIO 6 down to bit 0 on GPIO 13, then one pulse on GPIO 14. */
  function WriteData(b: byte): seq<PinEvent>
  {
    [ Put(Gpio(6), (b / 128) % 2 == 1), Put(Gpio(7), (b / 64) % 2 == 1),
      Put(Gpio(8), (b / 32) % 2 == 1), Put(Gpio(9), (b / 16) % 2 == 1),
      Put(Gpio(10), (b / 8) % 2 == 1), Put(Gpio(11), (b / 4) % 2 == 1),
      Put(Gpio(12), (b / 2) % 2 == 1), Put(Gpio(13), b % 2 == 1),
      Put(Gpio(PinBusValid), true), Put(Gpio(PinBusValid), false) ]
  }

  /** The start-up sequence of `main`: DATA low, 32 clocks, then one clock
      pulse while STROBE is held high. */
  function Boot(): seq<PinEvent>
  {
    [Put(Gpio(PinData), false)] + ClockPulses(Stages) + Latch()
  }

  /** Number of writes of `true` to `pin`: the rising edges a chip sees,
      since every trace here alternates high and low writes. */
  function Rises(t: seq<PinEvent>, pin: Pin): nat
  {
    multiset(t)[Put(pin, true)]
  }

  lemma {:induction false} ClockPulsesRises(n: nat, pin: Pin)
    ensures Rises(ClockPulses(n), pin) == (if pin == Gpio(PinClock) then n else 0)
  {
    if n > 0 {
      ClockPulsesRises(n - 1, pin);
      assert multiset(ClockPulses(n)) == multiset(ClockPulse()) + multiset(ClockPulses(n - 1));
    }
  }

  lemma RisesAppend(a: seq<PinEvent>, b: seq<PinEvent>, pin: Pin)
    ensures Rises(a + b, pin) == Rises(a, pin) + Rises(b, pin)
  {
    assert multiset(a + b) == multiset(a) + multiset(b);
  }

  lemma InterruptRises(ch: nat, pin: Pin)
    ensures Rises(Interrupt(ch), pin)
         == Rises(Prologue(), pin) + (if pin == Gpio(PinClock) then ch + (if ch < Stages then Stages - ch else 0) else 0)
          + 2 * Rises(StrobePulse(), pin) + Rises([Put(Led, true)], pin)
  {
    var n2 := if ch < Stages then Stages - ch else 0;
    var p1 := Prologue() + ClockPulses(ch);
    var p2 := p1 + StrobePulse();
    var p3 := p2 + ClockPulses(n2);
    var p4 := p3 + StrobePulse();
    assert Interrupt(ch) == p4 + [Put(Led, true)];
    RisesAppend(Prologue(), ClockPulses(ch), pin);
    RisesAppend(p1, StrobePulse(), pin);
    RisesAppend(p2, ClockPulses(n2), pin);
    RisesAppend(p3, StrobePulse(), pin);
    RisesAppend(p4, [Put(Led, true)], pin);
    ClockPulsesRises(ch, pin);
    ClockPulsesRises(n2, pin);
  }

  /** Whatever channel is addressed, `interrupt` produces 33 clock pulses and
      two strobes (for the channels 0..32 the chain can address). */
  lemma InterruptPulseCounts(ch: nat)
    requires ch <= Stages
    ensures Rises(Interrupt(ch), Gpio(PinClock)) == Stages + 1
    ensures Rises(Interrupt(ch), Gpio(PinStrobe)) == 2
    ensures Rises(Interrupt(ch), Gpio(PinData)) == 1
  {
    InterruptRises(ch, Gpio(PinClock));
    InterruptRises(ch, Gpio(PinStrobe));
    InterruptRises(ch, Gpio(PinData));
    PrologueRises(Gpio(PinClock));
    PrologueRises(Gpio(PinStrobe));
    PrologueRises(Gpio(PinData));
    StrobeRises(Gpio(PinClock));
    StrobeRises(Gpio(PinStrobe));
    StrobeRises(Gpio(PinData));
  }

  lemma PrologueRises(pin: Pin)
    ensures Rises(Prologue(), pin) == if pin == Gpio(PinClock) || pin == Gpio(PinData) then 1 else 0
  {
  }

  lemma StrobeRises(pin: Pin)
    ensures Rises(StrobePulse(), pin) == if pin == Gpio(PinStrobe) then 1 else 0
  {
  }

  // ---------------------------------------------------------------------
  // What the pins do to the chain: a 32-stage shift register fed from DATA
  // on each rising CLOCK edge, whose contents are captured on each rising
  // STROBE edge.

  type Register = r: seq<bool> | |r| == 32 witness seq(32, i => false)

  /** The register with no stage set: no chip is addressed. */
  function NoneSelected(): Register
  {
    seq(32, i => false)
  }

  const Clear: Register := NoneSelected()

  /** The register with only stage `ch` set: chip `ch` is the one addressed. */
  function OneHot(ch: nat): Register
    requires ch < Stages
  {
    seq(32, i => i == ch)
  }

  datatype Lines = Lines(data: bool, clock: bool, strobe: bool, reg: Register, captured: seq<Register>)

  function Shift(reg: Register, bit: bool): (r: Register)
    ensures r[0] == bit
    ensures forall i :: 0 < i < 32 ==> r[i] == reg[i - 1]
  {
    ([bit] + reg)[..32]
  }

  function Apply(l: Lines, e: PinEvent): Lines
  {
    if e.pin == Gpio(PinData) then l.(data := e.level)
    else if e.pin == Gpio(PinClock) then
      if e.level && !l.clock then l.(clock := true, reg := Shift(l.reg, l.data))
      else l.(clock := e.level)
    else if e.pin == Gpio(PinStrobe) then
      if e.level && !l.strobe then l.(strobe := true, captured := l.captured + [l.reg])
      else l.(strobe := e.level)
    else l
  }

  function Simulate(l: Lines, t: seq<PinEvent>): Lines
    decreases |t|
  {
    if t == [] then l else Simulate(Apply(l, t[0]), t[1..])
  }

  lemma {:induction false} SimulateAppend(l: Lines, a: seq<PinEvent>, b: seq<PinEvent>)
    ensures Simulate(l, a + b) == Simulate(Simulate(l, a), b)
    decreases |a|
  {
    if a == [] {
      assert a + b == b;
    } else {
      assert (a + b)[1..] == a[1..] + b;
      SimulateAppend(Apply(l, a[0]), a[1..], b);
    }
  }

  /** The register after `n` zeros have been clocked in. */
  function ShiftZeros(reg: Register, n: nat): (r: Register)
  {
    if n == 0 then reg else Shift(ShiftZeros(reg, n - 1), false)
  }

  lemma {:induction false} ShiftZerosAt(reg: Register, n: nat, i: nat)
    requires i < 32
    ensures ShiftZeros(reg, n)[i] == (if i < n then false else reg[i - n])
  {
    if n > 0 {
      if i > 0 {
        ShiftZerosAt(reg, n - 1, i - 1);
      }
    }
  }

  lemma SimulateCons(l: Lines, e: PinEvent, t: seq<PinEvent>)
    ensures Simulate(l, [e] + t) == Simulate(Apply(l, e), t)
  {
    assert ([e] + t)[1..] == t;
  }

  lemma SimulatePair(l: Lines, a: PinEvent, b: PinEvent)
    ensures Simulate(l, [a, b]) == Apply(Apply(l, a), b)
  {
    SimulateCons(l, a, [b]);
    SimulateCons(Apply(l, a), b, []);
    assert [a, b] == [a] + [b];
    assert [b] == [b] + [];
  }

  /** Clock pulses with DATA low shift zeros into the chain and touch nothing else. */
  lemma {:induction false} ClockPulsesShift(l: Lines, n: nat)
    requires !l.data && !l.clock
    ensures Simulate(l, ClockPulses(n)) == l.(reg := ShiftZeros(l.reg, n))
    decreases n
  {
    if n == 0 {
      assert l.(reg := ShiftZeros(l.reg, 0)) == l;
    } else {
      SimulateAppend(l, ClockPulse(), ClockPulses(n - 1));
      var l1 := l.(reg := Shift(l.reg, false));
      SimulatePair(l, Put(Gpio(PinClock), true), Put(Gpio(PinClock), false));
      assert Simulate(l, ClockPulse()) == l1;
      ClockPulsesShift(l1, n - 1);
      ShiftZerosComm(l.reg, n - 1);
    }
  }

  lemma {:induction false} ShiftZerosComm(reg: Register, n: nat)
    ensures ShiftZeros(Shift(reg, false), n) == Shift(ShiftZeros(reg, n), false)
  {
    if n > 0 {
      ShiftZerosComm(reg, n - 1);
    }
  }

  /** Lines idle: all three control lines low. */
  predicate Idle(l: Lines)
  {
    !l.data && !l.clock && !l.strobe
  }

  /** A strobe pulse on idle lines captures the register and leaves the lines idle. */
  lemma StrobeCaptures(l: Lines)
    requires Idle(l)
    ensures Simulate(l, StrobePulse()) == l.(captured := l.captured + [l.reg])
  {
    SimulatePair(l, Put(Gpio(PinStrobe), true), Put(Gpio(PinStrobe), false));
  }

  /** The opening of `interrupt`: one clock while DATA is high. */
  function Prologue(): seq<PinEvent>
  {
    [Put(Led, false), Put(Gpio(PinData), true), Put(Gpio(PinClock), true),
     Put(Gpio(PinClock), false), Put(Gpio(PinData), false)]
  }

  lemma PrologueShiftsOne(l: Lines)
    requires Idle(l)
    ensures Simulate(l, Prologue()) == l.(reg := Shift(l.reg, true))
  {
    var e := Prologue();
    var l2 := l.(data := true);
    var l3 := l2.(clock := true, reg := Shift(l.reg, true));
    var l4 := l3.(clock := false);
    assert Apply(l, e[0]) == l;
    assert Apply(l, e[1]) == l2;
    assert Apply(l2, e[2]) == l3;
    assert Apply(l3, e[3]) == l4;
    assert e == [e[0]] + ([e[1]] + ([e[2]] + [e[3], e[4]]));
    SimulateCons(l, e[0], [e[1]] + ([e[2]] + [e[3], e[4]]));
    SimulateCons(l, e[1], [e[2]] + [e[3], e[4]]);
    SimulateCons(l2, e[2], [e[3], e[4]]);
    SimulatePair(l3, e[3], e[4]);
  }

  /**
   * The addressing contract of `interrupt`: starting from idle lines and a
   * clear chain, the first strobe captures exactly stage `ch`, the second
   * captures an empty chain, and the chain is left idle and clear.
   */
  lemma InterruptSelectsOnlyChannel(l: Lines, ch: nat)
    requires Idle(l) && l.reg == Clear && ch < Stages
    ensures Simulate(l, Interrupt(ch)) == l.(captured := l.captured + [OneHot(ch), Clear])
  {
    var n2 := Stages - ch;
    var p2 := Prologue() + ClockPulses(ch) + StrobePulse();
    var p3 := p2 + ClockPulses(n2);
    var p4 := p3 + StrobePulse();
    assert Interrupt(ch) == p4 + [Put(Led, true)];
    InterruptAddresses(l, ch);
    var l3 := l.(reg := OneHot(ch), captured := l.captured + [OneHot(ch)]);
    // Walk the 1 out of the chain.
    ClockPulsesShift(l3, n2);
    SimulateAppend(l, p2, ClockPulses(n2));
    ShiftedOut(ch);
    // Second strobe, then the LED.
    var l4 := l3.(reg := Clear);
    StrobeCaptures(l4);
    SimulateAppend(l, p3, StrobePulse());
    SimulateAppend(l, p4, [Put(Led, true)]);
    SimulateCons(l4.(captured := l4.captured + [Clear]), Put(Led, true), []);
    AppendAssoc(l.captured, [OneHot(ch)], [Clear]);
  }

  /** The first half of `interrupt`: one 1 clocked in, walked to stage
      `ch`, and captured by the first strobe. */
  lemma InterruptAddresses(l: Lines, ch: nat)
    requires Idle(l) && l.reg == Clear && ch < Stages
    ensures Simulate(l, Prologue() + ClockPulses(ch) + StrobePulse())
         == l.(reg := OneHot(ch), captured := l.captured + [OneHot(ch)])
  {
    var p1 := Prologue() + ClockPulses(ch);
    PrologueShiftsOne(l);
    var l1 := l.(reg := Shift(Clear, true));
    ClockPulsesShift(l1, ch);
    SimulateAppend(l, Prologue(), ClockPulses(ch));
    ShiftedToChannel(ch);
    var l2 := l1.(reg := OneHot(ch));
    StrobeCaptures(l2);
    SimulateAppend(l, p1, StrobePulse());
  }

  /** A single 1 clocked in and followed by `ch` zeros sits at stage `ch`. */
  lemma ShiftedToChannel(ch: nat)
    requires ch < Stages
    ensures ShiftZeros(Shift(Clear, true), ch) == OneHot(ch)
  {
    var r := ShiftZeros(Shift(Clear, true), ch);
    forall i | 0 <= i < 32 ensures r[i] == (i == ch) {
      ShiftZerosAt(Shift(Clear, true), ch, i);
    }
  }

  /** The remaining `32 - ch` clocks push it off the end. */
  lemma ShiftedOut(ch: nat)
    requires ch < Stages
    ensures ShiftZeros(OneHot(ch), Stages - ch) == Clear
  {
    var r := ShiftZeros(OneHot(ch), Stages - ch);
    forall i | 0 <= i < 32 ensures !r[i] {
      ShiftZerosAt(OneHot(ch), Stages - ch, i);
    }
  }

  /** A trace that never drives DATA, CLOCK or STROBE leaves the chain alone. */
  lemma {:induction false} UntouchedLines(l: Lines, t: seq<PinEvent>)
    requires forall k :: 0 <= k < |t| ==> t[k].pin !in {Gpio(PinData), Gpio(PinClock), Gpio(PinStrobe)}
    ensures Simulate(l, t) == l
    decreases |t|
  {
    if t != [] {
      UntouchedLines(Apply(l, t[0]), t[1..]);
    }
  }

  /** `write_data` only touches the parallel bus: the chain is unaffected. */
  lemma WriteDataLeavesChain(l: Lines, b: byte)
    ensures Simulate(l, WriteData(b)) == l
  {
    UntouchedLines(l, WriteData(b));
  }

  function Level(e: PinEvent): (v: int)
  {
    if e.level then 1 else 0
  }

  /** The byte a chip reads from the parallel bus: GPIO 6 is the most significant bit. */
  function BusValue(t: seq<PinEvent>): (v: int)
    requires |t| >= 8
  {
    128 * Level(t[0]) + 64 * Level(t[1]) + 32 * Level(t[2]) + 16 * Level(t[3])
    + 8 * Level(t[4]) + 4 * Level(t[5]) + 2 * Level(t[6]) + Level(t[7])
  }

  /** `write_data` drives GPIO 6..13 in order and pulses the bus-valid line once. */
  lemma WriteDataPins(b: byte)
    ensures forall k :: 0 <= k < 8 ==> WriteData(b)[k].pin == Gpio(6 + k)
    ensures Rises(WriteData(b), Gpio(PinBusValid)) == 1
  {
    var t := WriteData(b);
    assert t == t[..8] + [Put(Gpio(PinBusValid), true), Put(Gpio(PinBusValid), false)];
    assert Put(Gpio(PinBusValid), true) !in multiset(t[..8]);
  }

  /** Reading the bus back yields the byte `write_data` put on it. */
  lemma WriteDataRoundTrip(b: byte)
    ensures BusValue(WriteData(b)) == b
  {
    var t := WriteData(b);
    assert Level(t[0]) == (b / 128) % 2;
    assert Level(t[1]) == (b / 64) % 2;
    assert Level(t[2]) == (b / 32) % 2;
    assert Level(t[3]) == (b / 16) % 2;
    assert Level(t[4]) == (b / 8) % 2;
    assert Level(t[5]) == (b / 4) % 2;
    assert Level(t[6]) == (b / 2) % 2;
    assert Level(t[7]) == b % 2;
    ByteBits(b);
  }

  /** The opening of boot: 32 zeros clocked in push out whatever the
      chain held. */
  lemma BootFlushes(l: Lines)
    requires Idle(l)
    ensures Simulate(l, [Put(Gpio(PinData), false)] + ClockPulses(Stages)) == l.(reg := Clear)
  {
    SimulateCons(l, Put(Gpio(PinData), false), []);
    ClockPulsesShift(l, Stages);
    SimulateAppend(l, [Put(Gpio(PinData), false)], ClockPulses(Stages));
    var r := ShiftZeros(l.reg, Stages);
    forall i | 0 <= i < 32 ensures !r[i] {
      ShiftZerosAt(l.reg, Stages, i);
    }
    assert r == Clear;
  }

  /** Boot leaves the chain clear and the lines idle, whatever the chain held at power-up. */
  lemma BootClearsChain(l: Lines)
    requires Idle(l)
    ensures Simulate(l, Boot()).reg == Clear
    ensures Idle(Simulate(l, Boot()))
  {
    BootFlushes(l);
    var flushed := [Put(Gpio(PinData), false)] + ClockPulses(Stages);
    assert Boot() == flushed + Latch();
    SimulateAppend(l, flushed, Latch());
    LatchShiftsAndCaptures(l.(reg := Clear));
    assert Shift(Clear, false) == Clear;
  }

  /** The close of boot: one clock pulse while STROBE is held high. */
  function Latch(): seq<PinEvent>
  {
    [Put(Gpio(PinStrobe), true)] + ClockPulse() + [Put(Gpio(PinStrobe), false)]
  }

  lemma LatchShiftsAndCaptures(l: Lines)
    requires Idle(l)
    ensures Simulate(l, Latch()) == l.(reg := Shift(l.reg, false), captured := l.captured + [l.reg])
  {
    var e := Latch();
    var l1 := l.(strobe := true, captured := l.captured + [l.reg]);
    var l2 := l1.(clock := true, reg := Shift(l.reg, false));
    var l3 := l2.(clock := false);
    assert Apply(l, e[0]) == l1;
    assert Apply(l1, e[1]) == l2;
    assert Apply(l2, e[2]) == l3;
    assert e == [e[0]] + ([e[1]] + [e[2], e[3]]);
    SimulateCons(l, e[0], [e[1]] + [e[2], e[3]]);
    SimulateCons(l1, e[1], [e[2], e[3]]);
    SimulatePair(l2, e[2], e[3]);
  }
}
