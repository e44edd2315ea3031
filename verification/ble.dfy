/**
 * The Bluetooth LE MIDI receiver of the sound board (btle.cpp): each write
 * to the MIDI characteristic is a BLE-MIDI packet (a header byte, then
 * timestamped MIDI messages), which is turned into 4-byte USB-MIDI event
 * packets (a code index number and three MIDI bytes).  Code index numbers
 * for SysEx follow table 4-1 of the USB Device Class Definition for MIDI
 * Devices 1.0: 0x4 SysEx continues, 0x5/0x6/0x7 SysEx ends with the
 * first/second/third byte.  Whether a SysEx message is open persists from
 * one write to the next.
 */
module Ble {
  import opened Common

  /** A USB-MIDI event packet. */
  datatype Packet = Packet(code: byte, command: byte, param1: byte, param2: byte)

  const SysExStart: byte := 0xF0
  const SysExEnd: byte := 0xF7

  /** What the parser expects next. */
  datatype Phase = NeedTimestamp | NeedStatus | NeedParam1 | NeedParam2

  /** The parser: its phase, the packet being filled, whether a SysEx
      message is open, and the packets handed on so far. */
  datatype Parser = Parser(phase: Phase, partial: Packet, inSysEx: bool, sent: seq<Packet>)

  predicate HasEnd(p: Packet)
  {
    p.command == SysExEnd || p.param1 == SysExEnd || p.param2 == SysExEnd
  }

  /** The code index number of a finished packet, and whether SysEx mode
      stays on: outside SysEx the command's high nibble; inside it, the
      position of the first 0xF7, or 0x4 (still open) when there is none. */
  function Classify(p: Packet, inSysEx: bool): (r: (byte, bool))
    ensures !inSysEx ==> r == (p.command / 16, false)
    ensures inSysEx ==> 4 <= r.0 <= 7
    ensures inSysEx ==> (r.1 <==> !HasEnd(p)) && (r.0 == 4 <==> !HasEnd(p))
    ensures inSysEx ==> (r.0 == 5 <==> p.command == SysExEnd)
    ensures inSysEx ==> (r.0 == 6 <==> p.command != SysExEnd && p.param1 == SysExEnd)
    ensures inSysEx ==> (r.0 == 7 <==> p.command != SysExEnd && p.param1 != SysExEnd && p.param2 == SysExEnd)
  {
    if !inSysEx then (p.command / 16, false)
    else if p.command == SysExEnd then (5, false)
    else if p.param1 == SysExEnd then (6, false)
    else if p.param2 == SysExEnd then (7, false)
    else (4, true)
  }

  /** Hands on the partial packet with its code, then clears the
      parameters; the command (running status) and the code stay. */
  function Finish(ps: Parser): (r: Parser)
    ensures r.phase == ps.phase && |r.sent| == |ps.sent| + 1 && r.sent[..|ps.sent|] == ps.sent
    ensures var p := r.sent[|ps.sent|];
      && p.command == ps.partial.command && p.param1 == ps.partial.param1 && p.param2 == ps.partial.param2
      && (p.code, r.inSysEx) == Classify(ps.partial, ps.inSysEx)
      && r.partial == p.(param1 := 0, param2 := 0)
    ensures HasEnd(r.sent[|ps.sent|]) ==> !r.inSysEx
  {
    var (code, open) := Classify(ps.partial, ps.inSysEx);
    var p := ps.partial.(code := code);
    ps.(partial := p.(param1 := 0, param2 := 0), inSysEx := open, sent := ps.sent + [p])
  }

  /** One byte of the write (after the header). */
  function Feed(ps: Parser, b: byte): (r: Parser)
    ensures |r.sent| == |ps.sent| || |r.sent| == |ps.sent| + 1
    ensures r.sent[..|ps.sent|] == ps.sent
    ensures |r.sent| == |ps.sent| + 1 <==> (ps.phase == NeedParam2 || (b >= 128 && ps.phase == NeedParam1))
    ensures b >= 128 ==> r.phase == (if ps.phase == NeedTimestamp then NeedStatus
                                     else if ps.phase == NeedStatus then NeedParam1 else NeedStatus)
    ensures b < 128 ==> r.phase == (if ps.phase == NeedParam2 then NeedTimestamp else NeedParam2)
    ensures r.inSysEx != ps.inSysEx ==> |r.sent| == |ps.sent| + 1 || (b == SysExStart && ps.phase == NeedStatus)
  {
    if b >= 128 then
      match ps.phase
      case NeedTimestamp => ps.(phase := NeedStatus)
      case NeedStatus =>
        ps.(partial := ps.partial.(command := b), inSysEx := ps.inSysEx || b == SysExStart, phase := NeedParam1)
      case _ => Finish(ps).(phase := NeedStatus)
    else if ps.phase == NeedParam2 then
      Finish(ps.(partial := ps.partial.(param2 := b))).(phase := NeedTimestamp)
    else ps.(partial := ps.partial.(param1 := b), phase := NeedParam2)
  }

  function FeedAll(ps: Parser, bytes: seq<byte>): (r: Parser)
    ensures |ps.sent| <= |r.sent| && r.sent[..|ps.sent|] == ps.sent
    decreases |bytes|
  {
    if bytes == [] then ps
    else
      var next := Feed(ps, bytes[0]);
      var r := FeedAll(next, bytes[1..]);
      assert r.sent[..|ps.sent|] == r.sent[..|next.sent|][..|ps.sent|];
      r
  }

  lemma FeedAllStep(ps: Parser, b: byte, rest: seq<byte>)
    ensures FeedAll(ps, [b] + rest) == FeedAll(Feed(ps, b), rest)
  {
    assert ([b] + rest)[1..] == rest;
  }

  lemma {:induction false} FeedAllAppend(ps: Parser, a: seq<byte>, b: seq<byte>)
    ensures FeedAll(ps, a + b) == FeedAll(FeedAll(ps, a), b)
    decreases |a|
  {
    if a == [] {
      assert a + b == b;
    } else {
      assert (a + b)[1..] == a[1..] + b;
      FeedAllAppend(Feed(ps, a[0]), a[1..], b);
    }
  }

  /** The packets a write produces and the SysEx mode it leaves. */
  datatype Received = Received(packets: seq<Packet>, inSysEx: bool)

  /** The parser at the end of the loop: the header byte is skipped and
      parsing starts expecting a timestamp.  `partial` is the packet
      variable's (uninitialised) starting content. */
  function Parse(buffer: seq<byte>, inSysEx: bool, partial: Packet): Parser
  {
    FeedAll(Parser(NeedTimestamp, partial, inSysEx, []), if buffer == [] then [] else buffer[1..])
  }

  /** The write callback as written: a packet still open at the end is
      handed on as it stands, with whatever code it last carried and
      without touching SysEx mode. */
  function WriteAsWritten(handle: int, valueHandle: int, buffer: seq<byte>, inSysEx: bool, partial: Packet): (r: Received)
    ensures handle != valueHandle ==> r == Received([], inSysEx)
  {
    if handle != valueHandle then Received([], inSysEx)
    else
      var ps := Parse(buffer, inSysEx, partial);
      if ps.phase == NeedParam1 || ps.phase == NeedParam2 then Received(ps.sent + [ps.partial], ps.inSysEx)
      else Received(ps.sent, ps.inSysEx)
  }

  /** The write callback with the open packet finished like any other. */
  function Write(handle: int, valueHandle: int, buffer: seq<byte>, inSysEx: bool, partial: Packet): (r: Received)
    ensures handle != valueHandle ==> r == Received([], inSysEx)
    ensures |buffer| <= 1 ==> r == Received([], inSysEx)
  {
    if handle != valueHandle then Received([], inSysEx)
    else
      var ps := Parse(buffer, inSysEx, partial);
      if ps.phase == NeedParam1 || ps.phase == NeedParam2 then
        var done := Finish(ps);
        Received(done.sent, done.inSysEx)
      else Received(ps.sent, ps.inSysEx)
  }

  /** The header byte is never looked at. */
  lemma HeaderIgnored(handle: int, valueHandle: int, x: byte, y: byte, rest: seq<byte>, inSysEx: bool, partial: Packet)
    ensures Write(handle, valueHandle, [x] + rest, inSysEx, partial) == Write(handle, valueHandle, [y] + rest, inSysEx, partial)
    ensures WriteAsWritten(handle, valueHandle, [x] + rest, inSysEx, partial) == WriteAsWritten(handle, valueHandle, [y] + rest, inSysEx, partial)
  {
    assert ([x] + rest)[1..] == rest == ([y] + rest)[1..];
  }

  // ---------------------------------------------------------------------
  // Channel messages arrive whole.

  /** A timestamped MIDI channel message as a BLE-MIDI sender writes it:
      Program Change (0xC_) and Channel Pressure (0xD_) carry one data
      byte, the other channel messages two. */
  datatype Event = Event(stamp: byte, status: byte, data1: byte, data2: Option<byte>)

  predicate ChannelStatus(status: byte)
  {
    0x80 <= status < 0xF0
  }

  predicate OneDataByte(status: byte)
  {
    status / 16 == 0xC || status / 16 == 0xD
  }

  predicate ChannelEvent(e: Event)
  {
    && e.stamp >= 128 && ChannelStatus(e.status) && e.data1 < 128
    && (e.data2.None? <==> OneDataByte(e.status))
    && (e.data2.Some? ==> e.data2.value < 128)
  }

  /** The message's bytes after its timestamp. */
  function Body(e: Event): seq<byte>
  {
    [e.status, e.data1] + (if e.data2.Some? then [e.data2.value] else [])
  }

  /** The bytes of a write carrying `events`, after the header. */
  function Frames(events: seq<Event>): (r: seq<byte>)
  {
    if events == [] then [] else [events[0].stamp] + Body(events[0]) + Frames(events[1..])
  }

  /** The packet USB-MIDI defines for a channel message; a one-byte
      message's last byte is `pad`. */
  function Expected(e: Event, pad: byte): Packet
  {
    Packet(e.status / 16, e.status, e.data1, if e.data2.Some? then e.data2.value else pad)
  }

  /** The packets for `events`: the first pads with `pad` (what the packet
      variable held), the rest with the 0 each finished packet leaves. */
  function ExpectedAll(events: seq<Event>, pad: byte): (r: seq<Packet>)
    ensures |r| == |events|
    ensures events != [] ==> r[0] == Expected(events[0], pad)
    ensures forall k :: 0 < k < |events| ==> r[k] == Expected(events[k], 0)
  {
    if events == [] then [] else [Expected(events[0], pad)] + ExpectedAll(events[1..], 0)
  }

  /** Between two messages the parser waits for a timestamp, or holds a
      one-data-byte message that the next timestamp completes. */
  predicate Boundary(ps: Parser)
  {
    !ps.inSysEx && (ps.phase == NeedTimestamp || (ps.phase == NeedParam2 && ChannelStatus(ps.partial.command)))
  }

  /** The third byte a one-data-byte message would be padded with. */
  function PadOf(ps: Parser): byte
  {
    if ps.phase == NeedTimestamp then ps.partial.param2 else 0
  }

  /** The packets handed on if the write ended here, with the open packet
      finished as the corrected callback does. */
  function Completed(ps: Parser): seq<Packet>
  {
    if ps.phase == NeedParam1 || ps.phase == NeedParam2 then Finish(ps).sent else ps.sent
  }

  /** A timestamp at a boundary completes any pending message. */
  lemma StampAtBoundary(ps: Parser, stamp: byte)
    requires Boundary(ps) && stamp >= 128
    ensures var r := Feed(ps, stamp);
      && r.phase == NeedStatus && !r.inSysEx
      && r.sent == Completed(ps) && r.partial.param2 == PadOf(ps)
  {
  }

  /** After the timestamp, the message's own bytes. */
  lemma BodyParses(ps: Parser, e: Event)
    requires ps.phase == NeedStatus && !ps.inSysEx && ChannelEvent(e)
    ensures var r := FeedAll(ps, Body(e));
      && Boundary(r) && PadOf(r) == 0
      && Completed(r) == ps.sent + [Expected(e, ps.partial.param2)]
      && (r.phase == NeedParam2 <==> e.data2.None?)
  {
    var s1 := Feed(ps, e.status);
    var s2 := Feed(s1, e.data1);
    FeedAllStep(ps, e.status, Body(e)[1..]);
    assert Body(e) == [e.status] + Body(e)[1..];
    if e.data2.Some? {
      assert Body(e)[1..] == [e.data1] + ([e.data2.value] + []);
      FeedAllStep(s1, e.data1, [e.data2.value] + []);
      FeedAllStep(s2, e.data2.value, []);
    } else {
      assert Body(e)[1..] == [e.data1] + [];
      FeedAllStep(s1, e.data1, []);
    }
  }

  /** One message, from a boundary to the next. */
  lemma OneEvent(ps: Parser, e: Event)
    requires Boundary(ps) && ChannelEvent(e)
    ensures var r := FeedAll(ps, [e.stamp] + Body(e));
      && Boundary(r) && PadOf(r) == 0
      && Completed(r) == Completed(ps) + [Expected(e, PadOf(ps))]
      && (r.phase == NeedParam2 <==> e.data2.None?)
  {
    StampAtBoundary(ps, e.stamp);
    FeedAllStep(ps, e.stamp, Body(e));
    BodyParses(Feed(ps, e.stamp), e);
  }

  lemma {:induction false} EventsParse(ps: Parser, events: seq<Event>)
    requires Boundary(ps)
    requires forall k :: 0 <= k < |events| ==> ChannelEvent(events[k])
    ensures var r := FeedAll(ps, Frames(events));
      && Boundary(r)
      && Completed(r) == Completed(ps) + ExpectedAll(events, PadOf(ps))
      && (events == [] ==> r == ps)
      && (events != [] ==> PadOf(r) == 0 && (r.phase == NeedParam2 <==> events[|events| - 1].data2.None?))
    decreases |events|
  {
    if events == [] {
      assert Completed(ps) + [] == Completed(ps);
    } else {
      var e := events[0];
      FeedAllAppend(ps, [e.stamp] + Body(e), Frames(events[1..]));
      OneEvent(ps, e);
      var mid := FeedAll(ps, [e.stamp] + Body(e));
      EventsParse(mid, events[1..]);
      AppendAssoc(Completed(ps), [Expected(e, PadOf(ps))], ExpectedAll(events[1..], 0));
      if |events| > 1 {
        assert events[1..][|events[1..]| - 1] == events[|events| - 1];
      }
    }
  }

  /** A write of timestamped channel messages, outside SysEx, yields
      exactly one USB-MIDI packet per message, in order, coded by its
      status nibble, and leaves SysEx mode off.  A one-data-byte message
      opening the write is padded with what the packet variable held. */
  lemma ChannelMessagesRoundTrip(valueHandle: int, header: byte, events: seq<Event>, partial: Packet)
    requires forall k :: 0 <= k < |events| ==> ChannelEvent(events[k])
    ensures Write(valueHandle, valueHandle, [header] + Frames(events), false, partial)
      == Received(ExpectedAll(events, partial.param2), false)
  {
    assert ([header] + Frames(events))[1..] == Frames(events);
    var init := Parser(NeedTimestamp, partial, false, []);
    EventsParse(init, events);
    assert [] + ExpectedAll(events, partial.param2) == ExpectedAll(events, partial.param2);
  }

  /** The code the open packet carries: that of the last packet handed on,
      or the packet variable's starting one. */
  predicate CodeTracks(ps: Parser, code0: byte)
  {
    ps.partial.code == if ps.sent == [] then code0 else ps.sent[|ps.sent| - 1].code
  }

  lemma {:induction false} FeedAllTracksCode(ps: Parser, bytes: seq<byte>, code0: byte)
    requires CodeTracks(ps, code0)
    ensures CodeTracks(FeedAll(ps, bytes), code0)
    decreases |bytes|
  {
    if bytes != [] {
      var next := Feed(ps, bytes[0]);
      assert CodeTracks(next, code0);
      FeedAllTracksCode(next, bytes[1..], code0);
    }
  }

  /** As written, the same write gives the same packets, except that a
      one-data-byte message ending it goes out with the code of the packet
      before it (or the packet variable's starting code). */
  lemma ChannelMessagesAsWritten(valueHandle: int, header: byte, events: seq<Event>, partial: Packet)
    requires forall k :: 0 <= k < |events| ==> ChannelEvent(events[k])
    ensures var r := WriteAsWritten(valueHandle, valueHandle, [header] + Frames(events), false, partial);
      var e := ExpectedAll(events, partial.param2);
      && !r.inSysEx
      && (events == [] || events[|events| - 1].data2.Some? ==> r.packets == e)
      && (events != [] && events[|events| - 1].data2.None? ==>
            var stale := if |events| >= 2 then events[|events| - 2].status / 16 else partial.code;
            r.packets == e[..|e| - 1] + [e[|e| - 1].(code := stale)])
  {
    assert ([header] + Frames(events))[1..] == Frames(events);
    var init := Parser(NeedTimestamp, partial, false, []);
    EventsParse(init, events);
    FeedAllTracksCode(init, Frames(events), partial.code);
    var ps := FeedAll(init, Frames(events));
    var e := ExpectedAll(events, partial.param2);
    assert Completed(ps) == e;
    if events != [] && events[|events| - 1].data2.None? {
      assert ps.sent == e[..|e| - 1];
    }
  }

  /** A Note On then a Program Change, the write 80 80 90 3C 64 80 C0 05:
      as written the Program Change goes out coded 9 (Note On), corrected
      coded 0xC. */
  lemma ProgramChangeAtWriteEndAsWritten(v: int, partial: Packet)
    ensures var events := [Event(0x80, 0x90, 60, Some(100)), Event(0x80, 0xC0, 5, None)];
      Frames(events) == [0x80, 0x90, 60, 100, 0x80, 0xC0, 5]
    ensures WriteAsWritten(v, v, [0x80, 0x80, 0x90, 60, 100, 0x80, 0xC0, 5], false, partial)
      == Received([Packet(9, 0x90, 60, 100), Packet(9, 0xC0, 5, 0)], false)
    ensures Write(v, v, [0x80, 0x80, 0x90, 60, 100, 0x80, 0xC0, 5], false, partial)
      == Received([Packet(9, 0x90, 60, 100), Packet(0xC, 0xC0, 5, 0)], false)
  {
    var events := [Event(0x80, 0x90, 60, Some(100)), Event(0x80, 0xC0, 5, None)];
    assert Body(events[0]) == [0x90, 60, 100];
    assert Body(events[1]) == [0xC0, 5];
    assert events[1..][1..] == [];
    assert Frames(events[1..]) == [0x80, 0xC0, 5];
    assert Frames(events) == [0x80, 0x90, 60, 100, 0x80, 0xC0, 5];
    assert [0x80] + Frames(events) == [0x80, 0x80, 0x90, 60, 100, 0x80, 0xC0, 5];
    ChannelMessagesRoundTrip(v, 0x80, events, partial);
    ChannelMessagesAsWritten(v, 0x80, events, partial);
  }

  /** Running status: two data bytes after a finished packet reuse its
      command. */
  lemma RunningStatus(ps: Parser, d1: byte, d2: byte)
    requires ps.phase == NeedTimestamp || ps.phase == NeedStatus
    requires !ps.inSysEx && d1 < 128 && d2 < 128
    ensures var r := FeedAll(ps, [d1, d2]);
      && r.sent == ps.sent + [Packet(ps.partial.command / 16, ps.partial.command, d1, d2)]
      && r.phase == NeedTimestamp && !r.inSysEx
  {
    FeedAllStep(ps, d1, [d2]);
    FeedAllStep(Feed(ps, d1), d2, []);
    assert [d1] + [d2] == [d1, d2];
    assert [d2] + [] == [d2];
  }

  // ---------------------------------------------------------------------
  // SysEx mode.

  function Last(s: seq<Packet>): Packet
    requires s != []
  {
    s[|s| - 1]
  }

  /** Between packets, a handed-on packet holding 0xF7 means SysEx mode is
      off. */
  predicate Settled(ps: Parser)
  {
    (ps.sent != [] && HasEnd(Last(ps.sent)) && (ps.phase == NeedTimestamp || ps.phase == NeedStatus)) ==> !ps.inSysEx
  }

  lemma {:induction false} FeedAllSettled(ps: Parser, bytes: seq<byte>)
    requires Settled(ps)
    ensures Settled(FeedAll(ps, bytes))
    decreases |bytes|
  {
    if bytes != [] {
      var next := Feed(ps, bytes[0]);
      assert Settled(next);
      FeedAllSettled(next, bytes[1..]);
    }
  }

  /** With the open packet finished at the end of the write, a write whose
      last packet holds 0xF7 always leaves SysEx mode off. */
  lemma EndByteClosesSysEx(handle: int, valueHandle: int, buffer: seq<byte>, inSysEx: bool, partial: Packet)
    ensures var r := Write(handle, valueHandle, buffer, inSysEx, partial);
      r.packets != [] && HasEnd(Last(r.packets)) ==> !r.inSysEx
  {
    FeedAllSettled(Parser(NeedTimestamp, partial, inSysEx, []), if buffer == [] then [] else buffer[1..]);
  }

  /** The end of a SysEx message, written as a timestamp and 0xF7 at the
      end of a write, after one full SysEx packet. */
  function SysExWrite(a: byte, b: byte): seq<byte>
  {
    [0x80, 0x80, SysExStart, a, b, 0x80, SysExEnd]
  }

  lemma SysExWriteParses(a: byte, b: byte, partial: Packet)
    requires a < 128 && b < 128
    ensures var ps := Parse(SysExWrite(a, b), false, partial);
      && ps.phase == NeedParam1 && ps.inSysEx
      && ps.sent == [Packet(4, SysExStart, a, b)]
      && ps.partial == Packet(4, SysExEnd, 0, 0)
  {
    var bytes := SysExWrite(a, b)[1..];
    var s0 := Parser(NeedTimestamp, partial, false, []);
    var s1 := Feed(s0, 0x80);
    var s2 := Feed(s1, SysExStart);
    var s3 := Feed(s2, a);
    var s4 := Feed(s3, b);
    var s5 := Feed(s4, 0x80);
    assert bytes == [0x80] + ([SysExStart] + ([a] + ([b] + ([0x80] + ([SysExEnd] + [])))));
    FeedAllStep(s0, 0x80, [SysExStart] + ([a] + ([b] + ([0x80] + ([SysExEnd] + [])))));
    FeedAllStep(s1, SysExStart, [a] + ([b] + ([0x80] + ([SysExEnd] + []))));
    FeedAllStep(s2, a, [b] + ([0x80] + ([SysExEnd] + [])));
    FeedAllStep(s3, b, [0x80] + ([SysExEnd] + []));
    FeedAllStep(s4, 0x80, [SysExEnd] + []);
    FeedAllStep(s5, SysExEnd, []);
  }

  /** As written, a SysEx message whose 0xF7 ends the write is handed on
      with code 0x4 (SysEx continues) and SysEx mode stays on, so the next
      write's Note On is coded 0x4 as well. */
  lemma SysExEndAtWriteEndAsWritten(v: int, a: byte, b: byte, partial: Packet, other: Packet)
    requires a < 128 && b < 128
    ensures WriteAsWritten(v, v, SysExWrite(a, b), false, partial)
      == Received([Packet(4, SysExStart, a, b), Packet(4, SysExEnd, 0, 0)], true)
    ensures WriteAsWritten(v, v, [0x80, 0x80, 0x90, 60, 100], true, other)
      == Received([Packet(4, 0x90, 60, 100)], true)
  {
    SysExWriteParses(a, b, partial);
    var note: seq<byte> := [0x80, 0x80, 0x90, 60, 100];
    var t0 := Parser(NeedTimestamp, other, true, []);
    var t1 := Feed(t0, 0x80);
    var t2 := Feed(t1, 0x90);
    var t3 := Feed(t2, 60);
    assert note[1..] == [0x80] + ([0x90] + ([60] + ([100] + [])));
    FeedAllStep(t0, 0x80, [0x90] + ([60] + ([100] + [])));
    FeedAllStep(t1, 0x90, [60] + ([100] + []));
    FeedAllStep(t2, 60, [100] + []);
    FeedAllStep(t3, 100, []);
  }

  /** Finished properly, the same write ends with a code 0x5 packet and
      SysEx mode off. */
  lemma SysExEndAtWriteEnd(v: int, a: byte, b: byte, partial: Packet)
    requires a < 128 && b < 128
    ensures Write(v, v, SysExWrite(a, b), false, partial)
      == Received([Packet(4, SysExStart, a, b), Packet(5, SysExEnd, 0, 0)], false)
  {
    SysExWriteParses(a, b, partial);
  }
}
