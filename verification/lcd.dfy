/**
 * The HD44780 character display on the sound board (hd44780.cpp), driven
 * in 4-bit mode through an I2C port expander: every byte for the display
 * goes out as its high nibble, then its low nibble, each latched by pulsing
 * the Enable line.  The expander byte also carries Register Select (bit 0)
 * and the backlight (bit 3).  The bus is abstracted as whether each
 * one-byte write is acknowledged; running out of acknowledgements counts
 * as a failure.
 */
module Lcd {
  import opened Common

  const Rs: byte := 0x01
  const En: byte := 0x04
  const BacklightOn: byte := 0x08

  /** The driver's state: whether the display still answers, and the
      backlight setting carried by every expander byte. */
  datatype Display = Display(connected: bool, backlight: bool)

  function BacklightBits(d: Display): (r: byte)
    ensures r == 0 || r == BacklightOn
  {
    if d.backlight then BacklightOn else 0
  }

  /** `x & ~En`. */
  function ClearEnable(x: byte): (r: byte)
    ensures (r / 4) % 2 == 0 && r / 8 == x / 8 && r % 4 == x % 4
  {
    if (x / 4) % 2 == 1 then x - 4 else x
  }

  /** One expander byte: Register Select, the Enable line, the backlight
      and a nibble on the display's data lines D4-D7. */
  function Pins(mode: byte, bl: byte, nibble: int, enable: bool): (r: byte)
    requires (mode == 0 || mode == Rs) && (bl == 0 || bl == BacklightOn) && 0 <= nibble < 16
    ensures r % 2 == mode && (r / 2) % 2 == 0 && ((r / 4) % 2 == 1 <==> enable)
    ensures (r / 8) % 2 == bl / 8 && r / 16 == nibble
  {
    NibbleFields(nibble, mode, if enable then 1 else 0, bl / 8);
    mode + bl + 16 * nibble + (if enable then En else 0)
  }

  /** The fields of an expander byte built from a nibble and the
      Register Select, Enable and backlight bits. */
  lemma NibbleFields(n: int, rs: int, en: int, bl: int)
    requires 0 <= n < 16 && 0 <= rs <= 1 && 0 <= en <= 1 && 0 <= bl <= 1
    ensures var x := 16 * n + 8 * bl + 4 * en + rs;
      && x % 2 == rs && (x / 2) % 2 == 0 && (x / 4) % 2 == en
      && (x / 8) % 2 == bl && x / 16 == n
  {
    var x := 16 * n + 8 * bl + 4 * en + rs;
    var h := 8 * n + 4 * bl + 2 * en;
    assert x == 2 * h + rs;
    assert x / 2 == h && x % 2 == rs;
    assert h == 2 * (4 * n + 2 * bl + en);
    assert x / 4 == 4 * n + 2 * bl + en;
    assert x / 8 == 2 * n + bl;
    assert x / 16 == n;
  }

  lemma ClearEnableNibble(n: int)
    requires 0 <= n < 16
    ensures ClearEnable(16 * n) == 16 * n
  {
    assert (16 * n) / 4 == 4 * n;
  }

  /** The six expander bytes of `writeData(data, mode)`: the high nibble
      with Enable low, high, low again, then the same for the low nibble.
      The source writes the third and sixth bytes as `… | nibble & ~En`,
      and since `&` binds tighter than `|` only the nibble is masked; a
      nibble has no Enable bit, so those bytes equal the first and fourth. */
  function Frame(data: byte, mode: byte, bl: byte): (r: seq<byte>)
    requires (mode == 0 || mode == Rs) && (bl == 0 || bl == BacklightOn)
    ensures |r| == 6 && r[2] == r[0] && r[5] == r[3]
    ensures r[1] == r[0] + En && r[4] == r[3] + En
    ensures forall k :: 0 <= k < 6 ==> r[k] % 2 == mode && (r[k] / 8) % 2 == bl / 8
    ensures (r[0] / 4) % 2 == 0 && (r[3] / 4) % 2 == 0
    ensures r[1] / 16 == data / 16 && r[4] / 16 == data % 16
  {
    var high := data / 16;
    var low := data % 16;
    ClearEnableNibble(high);
    ClearEnableNibble(low);
    [Pins(mode, bl, high, false), Pins(mode, bl, high, true), mode + bl + ClearEnable(16 * high),
     Pins(mode, bl, low, false), Pins(mode, bl, low, true), mode + bl + ClearEnable(16 * low)]
  }

  /** What the display takes from six expander bytes: the byte from the
      two latched nibbles, Register Select, and the backlight. */
  function DecodeFrame(r: seq<byte>): (byte, byte, byte)
    requires |r| == 6
  {
    ((r[1] / 16) * 16 + r[4] / 16, r[1] % 2, ((r[1] / 8) % 2) * 8)
  }

  lemma FrameRoundTrip(data: byte, mode: byte, bl: byte)
    requires (mode == 0 || mode == Rs) && (bl == 0 || bl == BacklightOn)
    ensures DecodeFrame(Frame(data, mode, bl)) == (data, mode, bl)
  {
  }

  /** One `writeData` call: a command byte, or a data byte (sent with
      Register Select). */
  datatype Write = Command(value: byte) | Data(value: byte)

  function Mode(w: Write): byte
  {
    if w.Data? then Rs else 0
  }

  /** The expander bytes of a list of writes, all acknowledged. */
  function Encode(writes: seq<Write>, bl: byte): (r: seq<byte>)
    requires bl == 0 || bl == BacklightOn
    ensures |r| == 6 * |writes|
  {
    if writes == [] then [] else Frame(writes[0].value, Mode(writes[0]), bl) + Encode(writes[1..], bl)
  }

  /** The write the display takes from six expander bytes. */
  function DecodeWrite(r: seq<byte>): Write
    requires |r| == 6
  {
    var (value, mode, _) := DecodeFrame(r);
    if mode == Rs then Data(value) else Command(value)
  }

  lemma SixFold(n: nat)
    ensures (6 * n) % 6 == 0
  {
  }

  /** What the display makes of a stream of expander bytes. */
  function Decode(bytes: seq<byte>): seq<Write>
    requires |bytes| % 6 == 0
  {
    if bytes == [] then [] else [DecodeWrite(bytes[..6])] + Decode(bytes[6..])
  }

  lemma WriteRoundTrip(w: Write, bl: byte)
    requires bl == 0 || bl == BacklightOn
    ensures DecodeWrite(Frame(w.value, Mode(w), bl)) == w
  {
    FrameRoundTrip(w.value, Mode(w), bl);
  }

  lemma DecodeFirst(f: seq<byte>, rest: seq<byte>)
    requires |f| == 6 && |rest| % 6 == 0
    ensures Decode(f + rest) == [DecodeWrite(f)] + Decode(rest)
  {
    assert (f + rest)[..6] == f;
    assert (f + rest)[6..] == rest;
  }

  lemma {:induction false} EncodeRoundTrip(writes: seq<Write>, bl: byte)
    requires bl == 0 || bl == BacklightOn
    ensures |Encode(writes, bl)| % 6 == 0
    ensures Decode(Encode(writes, bl)) == writes
    decreases |writes|
  {
    SixFold(|writes|);
    if writes != [] {
      EncodeRoundTrip(writes[1..], bl);
      WriteRoundTrip(writes[0], bl);
      DecodeFirst(Frame(writes[0].value, Mode(writes[0]), bl), Encode(writes[1..], bl));
      assert writes == [writes[0]] + writes[1..];
    }
  }

  /** What the writes did: the driver's state, the bytes it tried to write
      (the unacknowledged one included) and the acknowledgements left. */
  datatype Sent = Sent(display: Display, out: seq<byte>, acks: seq<bool>)

  /** Every write meets an acknowledgement. */
  predicate AllAcked(acks: seq<bool>)
  {
    forall k :: 0 <= k < |acks| ==> acks[k]
  }

  /** The first `n` writes are acknowledged. */
  predicate AckedUpTo(acks: seq<bool>, n: nat)
  {
    n <= |acks| && forall k :: 0 <= k < n ==> acks[k]
  }

  lemma AckedUpToStep(acks: seq<bool>, n: nat)
    requires |acks| > 0 && acks[0]
    ensures AckedUpTo(acks, n + 1) <==> AckedUpTo(acks[1..], n)
  {
    if AckedUpTo(acks[1..], n) {
      forall k | 0 <= k < n + 1
        ensures acks[k]
      {
        if k > 0 { assert acks[k] == acks[1..][k - 1]; }
      }
    }
  }

  /** Writes the bytes one at a time; the first unacknowledged one marks
      the display disconnected and ends the call. */
  function SendBytes(d: Display, bytes: seq<byte>, acks: seq<bool>): (r: Sent)
    ensures !d.connected ==> r == Sent(d, [], acks)
    ensures r.display.backlight == d.backlight
    ensures |r.out| <= |bytes| && r.out == bytes[..|r.out|]
    ensures r.display.connected ==> r.out == bytes
    ensures |r.acks| <= |acks| && r.acks == acks[|acks| - |r.acks|..]
    ensures d.connected && AllAcked(acks) && |acks| >= |bytes| ==>
      r.display.connected && r.acks == acks[|bytes|..]
    decreases |bytes|
  {
    if !d.connected || bytes == [] then Sent(d, [], acks)
    else if acks == [] || !acks[0] then Sent(d.(connected := false), [bytes[0]], if acks == [] then [] else acks[1..])
    else
      var r := SendBytes(d, bytes[1..], acks[1..]);
      assert |acks| >= |bytes| ==> acks[1..][|bytes| - 1..] == acks[|bytes|..];
      assert acks[1..][|acks| - 1 - |r.acks|..] == acks[|acks| - |r.acks|..];
      Sent(r.display, [bytes[0]] + r.out, r.acks)
  }

  /** One acknowledged byte in front moves both facts one place on. */
  lemma StopsStep(acks: seq<bool>, n: nat, m: nat, connected: bool)
    requires |acks| > 0 && acks[0]
    requires connected <==> AckedUpTo(acks[1..], n)
    requires !connected ==> 0 < m && AckedUpTo(acks[1..], m - 1) && (m - 1 < |acks| - 1 ==> !acks[1..][m - 1])
    ensures connected <==> AckedUpTo(acks, n + 1)
    ensures !connected ==> AckedUpTo(acks, m) && (m < |acks| ==> !acks[m])
  {
    AckedUpToStep(acks, n);
    if !connected {
      AckedUpToStep(acks, m - 1);
      if m < |acks| {
        assert acks[m] == acks[1..][m - 1];
      }
    }
  }

  /** The display stays connected exactly when every byte is acknowledged;
      otherwise the last byte attempted is the first one refused (or the
      first with no acknowledgement left), and nothing after it is sent. */
  lemma {:induction false} SendBytesStops(d: Display, bytes: seq<byte>, acks: seq<bool>)
    requires d.connected
    ensures var r := SendBytes(d, bytes, acks);
      && (r.display.connected <==> AckedUpTo(acks, |bytes|))
      && (!r.display.connected ==>
            && 0 < |r.out| && AckedUpTo(acks, |r.out| - 1)
            && (|r.out| - 1 < |acks| ==> !acks[|r.out| - 1]))
    decreases |bytes|
  {
    var r := SendBytes(d, bytes, acks);
    if bytes == [] {
      assert AckedUpTo(acks, 0);
    } else if acks == [] || !acks[0] {
      assert !AckedUpTo(acks, |bytes|) && AckedUpTo(acks, 0);
    } else {
      var s := SendBytes(d, bytes[1..], acks[1..]);
      SendBytesStops(d, bytes[1..], acks[1..]);
      assert r == Sent(s.display, [bytes[0]] + s.out, s.acks);
      StopsStep(acks, |bytes| - 1, |s.out|, s.display.connected);
    }
  }

  /** A series of `writeData` calls. */
  function Perform(d: Display, writes: seq<Write>, acks: seq<bool>): (r: Sent)
    ensures !d.connected ==> r == Sent(d, [], acks)
    ensures r.display.backlight == d.backlight
    ensures |r.out| <= 6 * |writes| && r.out == Encode(writes, BacklightBits(d))[..|r.out|]
    ensures r.display.connected ==> r.out == Encode(writes, BacklightBits(d))
    decreases |writes|
  {
    if writes == [] then Sent(d, [], acks)
    else
      var frame := Frame(writes[0].value, Mode(writes[0]), BacklightBits(d));
      var s := SendBytes(d, frame, acks);
      var r := Perform(s.display, writes[1..], s.acks);
      PerformStep(frame, Encode(writes[1..], BacklightBits(d)), s.out, r.out, s.display.connected);
      Sent(r.display, s.out + r.out, r.acks)
  }

  lemma PerformStep(frame: seq<byte>, rest: seq<byte>, first: seq<byte>, later: seq<byte>, connected: bool)
    requires |first| <= |frame| && first == frame[..|first|]
    requires |later| <= |rest| && later == rest[..|later|]
    requires connected ==> first == frame
    requires !connected ==> later == []
    ensures |first + later| <= |frame + rest| && first + later == (frame + rest)[..|first + later|]
  {
  }

  /** With every write acknowledged, the display stays connected and one
      acknowledgement is used per byte. */
  lemma {:induction false} PerformAllAcked(d: Display, writes: seq<Write>, acks: seq<bool>)
    requires d.connected && |acks| >= 6 * |writes| && AllAcked(acks)
    ensures var r := Perform(d, writes, acks);
      r.display.connected && r.out == Encode(writes, BacklightBits(d)) && r.acks == acks[6 * |writes|..]
    decreases |writes|
  {
    if writes != [] {
      PerformFirstAcked(d, writes, acks);
      PerformAllAcked(d, writes[1..], acks[6..]);
      assert acks[6..][6 * (|writes| - 1)..] == acks[6 * |writes|..];
    } else {
      assert acks[0..] == acks;
    }
  }

  /** With its six acknowledgements, the first write goes out whole and
      the rest start from the same state. */
  lemma PerformFirstAcked(d: Display, writes: seq<Write>, acks: seq<bool>)
    requires writes != [] && d.connected && |acks| >= 6 && AllAcked(acks)
    ensures var r := Perform(d, writes[1..], acks[6..]);
      Perform(d, writes, acks)
        == Sent(r.display, Frame(writes[0].value, Mode(writes[0]), BacklightBits(d)) + r.out, r.acks)
  {
    var frame := Frame(writes[0].value, Mode(writes[0]), BacklightBits(d));
    var s := SendBytes(d, frame, acks);
    assert s == Sent(d, frame, acks[6..]);
  }

  /** Every expander byte carries the backlight setting, and Register
      Select exactly for data writes. */
  lemma {:induction false} EncodeCarriesFlags(writes: seq<Write>, bl: byte, k: nat)
    requires bl == 0 || bl == BacklightOn
    requires k < 6 * |writes|
    ensures var e := Encode(writes, bl);
      (e[k] / 8) % 2 == bl / 8 && (e[k] % 2 == 1 <==> writes[k / 6].Data?)
    decreases |writes|
  {
    var e := Encode(writes, bl);
    var f := Frame(writes[0].value, Mode(writes[0]), bl);
    assert e == f + Encode(writes[1..], bl);
    if k < 6 {
      assert k / 6 == 0;
      assert e[k] == f[k];
    } else {
      assert e[k] == Encode(writes[1..], bl)[k - 6];
      EncodeCarriesFlags(writes[1..], bl, k - 6);
      assert (k - 6) / 6 == k / 6 - 1;
      assert writes[1..][(k - 6) / 6] == writes[k / 6];
    }
  }

  // ---------------------------------------------------------------------
  // Commands, as the HD44780 instruction set reads them.

  const ClearDisplay: byte := 0x01
  const ReturnHome: byte := 0x02
  /** Function set: 4-bit interface, two lines, 5x8 dots. */
  const FunctionSet: byte := 0x28

  /** Display on/off control: 0x08 with D (display, 0x04), C (cursor,
      0x02) and B (blink, 0x01). */
  function DisplayControl(cursor: bool, blink: bool, display: bool): (r: byte)
    ensures r / 8 == 1
    ensures (r / 4) % 2 == 1 <==> display
    ensures (r / 2) % 2 == 1 <==> cursor
    ensures r % 2 == 1 <==> blink
  {
    0x08 + (if cursor then 0x02 else 0) + (if blink then 0x01 else 0) + (if display then 0x04 else 0)
  }

  /** Entry mode set: 0x04 with I/D (0x02: the address counts up after each
      character) and S (0x01: the display shifts). */
  predicate CountsUp(entryMode: byte)
  {
    (entryMode / 2) % 2 == 1
  }

  /** The entry mode as written: `increment` selects 0x00 and its absence
      0x02. */
  function EntryModeAsWritten(increment: bool, shift: bool): (r: byte)
    ensures r / 4 == 1 && (r % 2 == 1 <==> shift)
  {
    0x04 + (if increment then 0x00 else 0x02) + (if shift then 0x01 else 0x00)
  }

  /** So `increment` makes the address count down. */
  lemma EntryModeInvertedAsWritten(increment: bool, shift: bool)
    ensures CountsUp(EntryModeAsWritten(increment, shift)) <==> !increment
  {
  }

  /** The entry mode with I/D set for `increment`. */
  function EntryMode(increment: bool, shift: bool): (r: byte)
    ensures r / 4 == 1
    ensures CountsUp(r) <==> increment
    ensures r % 2 == 1 <==> shift
  {
    0x04 + (if increment then 0x02 else 0x00) + (if shift then 0x01 else 0x00)
  }

  /** Cursor or display shift: 0x10 with S/C (0x08: the display moves) and
      R/L (0x04: to the right). */
  predicate ShiftsRight(shiftCommand: byte)
  {
    (shiftCommand / 4) % 2 == 1
  }

  /** `moveDisplay` as written: `left` selects 0x04. */
  function MoveDisplayAsWritten(left: bool, shift: bool): (r: byte)
    ensures r / 16 == 1 && ((r / 8) % 2 == 1 <==> shift)
  {
    0x10 + (if shift then 0x08 else 0) + (if left then 0x04 else 0)
  }

  /** So `left` moves to the right. */
  lemma MoveDisplayInvertedAsWritten(left: bool, shift: bool)
    ensures ShiftsRight(MoveDisplayAsWritten(left, shift)) <==> left
  {
  }

  /** `moveDisplay` with R/L set for a move to the right. */
  function MoveDisplay(left: bool, shift: bool): (r: byte)
    ensures r / 16 == 1
    ensures ShiftsRight(r) <==> !left
    ensures (r / 8) % 2 == 1 <==> shift
  {
    0x10 + (if shift then 0x08 else 0) + (if left then 0 else 0x04)
  }

  /** `setDisplay` as written: display control, then the inverted entry
      mode. */
  function SetDisplayAsWritten(cursor: bool, blink: bool, display: bool, increment: bool, shift: bool): (r: seq<Write>)
    ensures |r| == 2 && r[0] == Command(DisplayControl(cursor, blink, display))
    ensures r[1].Command? && CountsUp(r[1].value) == !increment
  {
    [Command(DisplayControl(cursor, blink, display)), Command(EntryModeAsWritten(increment, shift))]
  }

  /** `setDisplay` with the corrected entry mode. */
  function SetDisplay(cursor: bool, blink: bool, display: bool, increment: bool, shift: bool): (r: seq<Write>)
    ensures |r| == 2 && r[0] == Command(DisplayControl(cursor, blink, display))
    ensures r[1].Command? && CountsUp(r[1].value) == increment
  {
    [Command(DisplayControl(cursor, blink, display)), Command(EntryMode(increment, shift))]
  }

  /** `clear` and `resetCursor`: one command each. */
  function Clear(): Write
  {
    Command(ClearDisplay)
  }

  function ResetCursor(): Write
  {
    Command(ReturnHome)
  }

  /** `reset` as written: function set, the default display settings
      (display on, cursor and blink off, `increment`, no shift), clear,
      home. The entry mode that reaches the display is 0x04: counting
      down. */
  function ResetAsWritten(): (r: seq<Write>)
    ensures r == [Command(FunctionSet), Command(0x0C), Command(0x04), Command(ClearDisplay), Command(ReturnHome)]
    ensures !CountsUp(r[2].value)
  {
    [Command(FunctionSet)] + SetDisplayAsWritten(false, false, true, true, false) + [Clear(), ResetCursor()]
  }

  /** The constructor's commands as written: three times 0x03 and then 0x02
      to enter 4-bit mode, then `reset`. */
  function InitAsWritten(): (r: seq<Write>)
    ensures |r| == 9 && r[..4] == [Command(0x03), Command(0x03), Command(0x03), Command(0x02)]
    ensures r[4..] == ResetAsWritten()
  {
    [Command(0x03), Command(0x03), Command(0x03), Command(0x02)] + ResetAsWritten()
  }

  /** `reset` with the corrected entry mode: counting up. */
  function Reset(): (r: seq<Write>)
    ensures r == [Command(FunctionSet), Command(0x0C), Command(0x06), Command(ClearDisplay), Command(ReturnHome)]
  {
    [Command(FunctionSet)] + SetDisplay(false, false, true, true, false) + [Clear(), ResetCursor()]
  }

  /** The constructor's commands with the corrected `reset`. */
  function Init(): (r: seq<Write>)
    ensures |r| == 9 && r[..4] == [Command(0x03), Command(0x03), Command(0x03), Command(0x02)]
    ensures r[4..] == Reset()
  {
    [Command(0x03), Command(0x03), Command(0x03), Command(0x02)] + Reset()
  }

  /** `setCursor(x, y)`: set the display address to column `x` (six bits) on
      row `y` (one bit, 0x40 being the second row's start). */
  function SetCursor(x: int, y: int): (r: Write)
    ensures r.Command? && r.value / 128 == 1
    ensures (r.value - 0x80) % 0x40 == x % 64 && (r.value - 0x80) / 0x40 == y % 2
  {
    Command(0x80 + x % 64 + 0x40 * (y % 2))
  }

  /** Different on-screen positions give different addresses. */
  lemma SetCursorInjective(x1: int, y1: int, x2: int, y2: int)
    requires 0 <= x1 < 64 && 0 <= x2 < 64 && 0 <= y1 < 2 && 0 <= y2 < 2
    ensures SetCursor(x1, y1) == SetCursor(x2, y2) <==> x1 == x2 && y1 == y2
  {
  }

  /** `writeCharacter(index, rows)`: set the character-generator address of
      glyph `index` (three bits), write its eight rows as data, then go back
      to display address 0. */
  function WriteCharacter(index: byte, rows: seq<byte>): (r: seq<Write>)
    requires |rows| >= 8
    ensures |r| == 10 && r[0].Command? && r[9] == Command(0x80)
    ensures r[0].value / 64 == 1 && (r[0].value - 0x40) / 8 == index % 8 && r[0].value % 8 == 0
    ensures forall k :: 1 <= k <= 8 ==> r[k] == Data(rows[k - 1])
  {
    [Command(0x40 + 8 * (index % 8))] + seq(8, k requires 0 <= k < 8 => Data(rows[k])) + [Command(0x80)]
  }

  /** `put(c)`: one data write. */
  function Put(c: byte): Write
  {
    Data(c)
  }

  /** The length `strlen` finds: the bytes before the first zero. */
  function StrLen(s: seq<byte>): (n: nat)
    requires 0 in s
    ensures n < |s| && s[n] == 0 && forall k :: 0 <= k < n ==> s[k] != 0
  {
    if s[0] == 0 then 0 else 1 + StrLen(s[1..])
  }

  /** `write(str, len)`: each character put in turn; a length of 0 means
      up to the terminating zero. */
  function WriteText(str: seq<byte>, len: nat): (r: seq<Write>)
    requires len == 0 ==> 0 in str
    requires len <= |str|
    ensures len > 0 ==> |r| == len
    ensures len == 0 ==> |r| < |str| && str[|r|] == 0 && forall k :: 0 <= k < |r| ==> str[k] != 0
    ensures forall k :: 0 <= k < |r| ==> r[k] == Data(str[k])
  {
    var n := if len == 0 then StrLen(str) else len;
    seq(n, k requires 0 <= k < n => Put(str[k]))
  }

  /** `setBacklight(on)`: the new setting, then a write of 0 that carries
      it to the expander. */
  function SetBacklight(d: Display, on: bool): (r: (Display, seq<Write>))
    ensures r.0 == d.(backlight := on) && r.1 == [Command(0)]
  {
    (d.(backlight := on), [Command(0)])
  }

  /** After `setBacklight(on)`, every expander byte written carries the
      setting until the next change. */
  lemma BacklightCarried(d: Display, on: bool, later: seq<Write>, acks: seq<bool>, k: nat)
    ensures var (d2, w) := SetBacklight(d, on);
      var r := Perform(d2, w + later, acks);
      k < |r.out| ==> ((r.out[k] / 8) % 2 == 1 <==> on)
  {
    var (d2, w) := SetBacklight(d, on);
    var r := Perform(d2, w + later, acks);
    if k < |r.out| {
      EncodeCarriesFlags(w + later, BacklightBits(d2), k);
    }
  }

  /** Once a write goes unacknowledged, nothing more is written. */
  lemma FailureIsFinal(d: Display, first: seq<Write>, later: seq<Write>, acks: seq<bool>)
    ensures var r := Perform(d, first, acks);
      !r.display.connected ==> Perform(r.display, later, r.acks) == Sent(r.display, [], r.acks)
  {
  }

  /** The constructor as written. `isConnected` has no initialiser and
      nothing sets it, so the display starts with whatever the object's
      memory held (`flag`; false for a static object) and the backlight
      on. With the flag false, nothing reaches the expander, then or later. */
  function ConstructAsWritten(flag: bool, acks: seq<bool>): (r: Sent)
    ensures !flag ==> r == Sent(Display(false, true), [], acks)
    ensures r.display.backlight
    ensures r.display.connected ==> r.out == Encode(InitAsWritten(), BacklightOn)
  {
    var d := Display(flag, true);
    assert BacklightBits(d) == BacklightOn;
    Perform(d, InitAsWritten(), acks)
  }

  /** Even when the flag happens to be set, the display the constructor
      leaves counts down. */
  lemma InitReceivedAsWritten(acks: seq<bool>)
    requires |acks| >= 54 && AllAcked(acks)
    ensures var r := ConstructAsWritten(true, acks);
      && r.display.connected
      && Decode(r.out) == InitAsWritten()
      && !CountsUp(Decode(r.out)[6].value)
  {
    PerformAllAcked(Display(true, true), InitAsWritten(), acks);
    EncodeRoundTrip(InitAsWritten(), BacklightOn);
  }

  /** The corrected constructor: it marks the display connected before its
      first write, and sends the corrected commands. */
  function Construct(acks: seq<bool>): (r: Sent)
    ensures r.display.backlight
    ensures |r.out| <= 54 && r.out == Encode(Init(), BacklightOn)[..|r.out|]
    ensures r.display.connected ==> r.out == Encode(Init(), BacklightOn)
  {
    Perform(Display(true, true), Init(), acks)
  }

  /** With every write acknowledged, the corrected constructor leaves the
      display connected, and the display receives exactly its commands,
      counting up. */
  lemma InitReceived(acks: seq<bool>)
    requires |acks| >= 54 && AllAcked(acks)
    ensures var r := Construct(acks);
      && r.display.connected
      && Decode(r.out) == Init()
      && CountsUp(Decode(r.out)[6].value)
  {
    PerformAllAcked(Display(true, true), Init(), acks);
    EncodeRoundTrip(Init(), BacklightOn);
  }
}
