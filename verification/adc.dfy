/**
 * The MCP3428 four-channel analog-to-digital converter on the sound board
 * (mcp3428.cpp), driven over I2C.  The bus is abstracted as the answers it
 * gives: whether each one-byte write is acknowledged, and what each
 * three-byte read returns (None for a failed read).  Running out of answers
 * counts as a failure.
 */
module Adc {
  import opened Common

  /** The configuration byte's resolution field (bits 2-3) and gain field
      (bits 0-1). */
  function Resolution(mask: byte): int
  {
    if (mask / 8) % 2 == 1 then 16 else if (mask / 4) % 2 == 1 then 14 else 12
  }

  function Gain(mask: byte): int
  {
    match mask % 4
    case 0 => 1
    case 1 => 2
    case 2 => 4
    case _ => 8
  }

  /** The constructor's configuration mask: a resolution of 16 or 14 bits is
      selected as asked, anything else gives 12; a gain of 2, 4 or 8 as
      asked, anything else gives 1. */
  function ConfigMask(bits: int, gain: int): (r: byte)
    ensures r < 16
    ensures Resolution(r) == (if bits == 16 || bits == 14 then bits else 12)
    ensures Gain(r) == (if gain == 2 || gain == 4 || gain == 8 then gain else 1)
  {
    var resolution: byte := if bits == 16 then 0x08 else if bits == 14 then 0x04 else 0x00;
    if gain == 2 then resolution + 0x01
    else if gain == 4 then resolution + 0x02
    else if gain == 8 then resolution + 0x03
    else resolution
  }

  /** The byte that starts a one-shot conversion of channel `i`:
      `0x80 | i << 5 | mask`, the three fields being disjoint. */
  function Select(i: nat, mask: byte): (r: byte)
    requires i < 4 && mask < 16
    ensures r / 128 == 1 && (r / 32) % 4 == i && r % 32 == mask
  {
    0x80 + 32 * i + mask
  }

  /** One three-byte read: the two data bytes and the configuration byte,
      whose bit 7 is set while the conversion is not done. */
  datatype Reading = Reading(high: byte, low: byte, config: byte)

  /** The sample as assembled from a reading, scaled to 16 bits and kept in
      an `int16_t`. */
  function Sample(mask: byte, high: byte, low: byte): (r: int)
    ensures -0x8000 <= r < 0x8000
  {
    if Resolution(mask) == 16 then Int16(high * 0x100 + low)
    else if Resolution(mask) == 14 then Int16(high * 0x400 + low * 4)
    else Int16(high * 0x1000 + low * 0x10)
  }

  /** The converter's output code for a signed reading `v`: `v` in 16-bit
      two's complement, sign-extended from the resolution's width, high
      byte first. */
  function OutputCode(v: int): (r: (byte, byte))
  {
    var code := v % 0x1_0000;
    (code / 256, code % 256)
  }

  /** The factor that scales a reading to the 16-bit range, and the bound
      of a signed reading at the resolution. */
  function Scale(mask: byte): int
  {
    if Resolution(mask) == 16 then 1 else if Resolution(mask) == 14 then 4 else 16
  }

  function Limit(mask: byte): int
  {
    if Resolution(mask) == 16 then 0x8000 else if Resolution(mask) == 14 then 0x2000 else 0x800
  }

  /** A reading comes back as the signed value scaled to the 16-bit range:
      unchanged at 16 bits, times 4 at 14 bits and times 16 at 12 bits. */
  lemma SampleOfReading(mask: byte, v: int)
    requires -Limit(mask) <= v < Limit(mask)
    ensures Sample(mask, OutputCode(v).0, OutputCode(v).1) == v * Scale(mask)
  {
    var (h, l) := OutputCode(v);
    var code := v % 0x1_0000;
    assert h * 256 + l == code;
    if Resolution(mask) == 16 {
      Int16Scaled(v, 1);
    } else if Resolution(mask) == 14 {
      assert h * 0x400 + l * 4 == code * 4;
      Int16Scaled(v, 4);
    } else {
      assert h * 0x1000 + l * 0x10 == code * 16;
      Int16Scaled(v, 16);
    }
  }

  lemma Int16Scaled(v: int, k: int)
    requires k == 1 || k == 4 || k == 16
    requires -0x8000 <= v * k < 0x8000
    ensures Int16((v % 0x1_0000) * k) == v * k
  {
    if v >= 0 {
      assert v % 0x1_0000 == v;
    } else {
      assert v % 0x1_0000 == v + 0x1_0000;
      var low := v * k + 0x1_0000;
      assert 0x8000 <= low < 0x1_0000;
      assert (v + 0x1_0000) * k == low + (k - 1) * 0x1_0000;
      assert ((v + 0x1_0000) * k) % 0x1_0000 == low;
    }
  }

  function Pow2(n: int): (r: nat)
    ensures r >= 1
    decreases n
  {
    if n <= 0 then 1 else 2 * Pow2(n - 1)
  }

  /** The first finished reading and the replies after it, or None if a read
      fails first. */
  function AwaitReady(replies: seq<Option<Reading>>): (r: Option<(Reading, seq<Option<Reading>>)>)
    ensures r.Some? ==> r.value.0.config < 128 && |r.value.1| < |replies|
    decreases |replies|
  {
    if replies == [] || replies[0].None? then None
    else if replies[0].value.config >= 128 then AwaitReady(replies[1..])
    else Some((replies[0].value, replies[1..]))
  }

  /** The finished readings of up to `n` channels in turn: each needs its
      start byte acknowledged and a reply with the ready bit clear before
      any read fails. */
  function Readings(n: nat, acks: seq<bool>, replies: seq<Option<Reading>>): (r: seq<Reading>)
    ensures |r| <= n
    ensures forall k :: 0 <= k < |r| ==> r[k].config < 128
    decreases n
  {
    if n == 0 || acks == [] || !acks[0] then []
    else match AwaitReady(replies)
      case None => []
      case Some((reading, rest)) => [reading] + Readings(n - 1, acks[1..], rest)
  }

  /** The channels from `i` on: whether all were read, for each one read
      whether its sample changed, the samples, and the bytes written. */
  datatype Pass = Pass(complete: bool, changed: seq<bool>, regs: seq<int>, sent: seq<byte>)

  function ScanFrom(mask: byte, i: nat, regs: seq<int>, acks: seq<bool>, replies: seq<Option<Reading>>): (r: Pass)
    requires i <= 4 && |regs| == 4 && mask < 16
    ensures |r.regs| == 4
    ensures r.complete ==> |r.changed| == 4 - i && |r.sent| == 4 - i
    ensures !r.complete ==> |r.sent| == |r.changed| + 1 && i + |r.changed| < 4
    ensures forall k :: 0 <= k < |r.sent| ==> r.sent[k] == Select(i + k, mask)
    ensures forall k :: 0 <= k < |r.changed| ==> (r.changed[k] <==> r.regs[i + k] != regs[i + k])
    ensures forall j :: 0 <= j < 4 && (j < i || j >= i + |r.changed|) ==> r.regs[j] == regs[j]
    decreases 4 - i
  {
    if i == 4 then Pass(true, [], regs, [])
    else if acks == [] || !acks[0] then Pass(false, [], regs, [Select(i, mask)])
    else match AwaitReady(replies)
      case None => Pass(false, [], regs, [Select(i, mask)])
      case Some((reading, rest)) =>
        var s := Sample(mask, reading.high, reading.low);
        var r := ScanFrom(mask, i + 1, regs[i := s], acks[1..], rest);
        Pass(r.complete, [s != regs[i]] + r.changed, r.regs, [Select(i, mask)] + r.sent)
  }

  /** The pass stores, channel after channel, the sample of each finished
      reading, and flags exactly those channels. */
  lemma {:induction false} ScanFromStoresReadings(mask: byte, i: nat, regs: seq<int>, acks: seq<bool>, replies: seq<Option<Reading>>)
    requires i <= 4 && |regs| == 4 && mask < 16
    ensures var r := ScanFrom(mask, i, regs, acks, replies);
      var rd := Readings(4 - i, acks, replies);
      && |rd| == |r.changed|
      && forall k :: 0 <= k < |rd| ==> r.regs[i + k] == Sample(mask, rd[k].high, rd[k].low)
    decreases 4 - i
  {
    if i < 4 && acks != [] && acks[0] && AwaitReady(replies).Some? {
      var (reading, rest) := AwaitReady(replies).value;
      var s := Sample(mask, reading.high, reading.low);
      var q := ScanFrom(mask, i + 1, regs[i := s], acks[1..], rest);
      var r := ScanFrom(mask, i, regs, acks, replies);
      assert r.regs == q.regs && r.changed == [s != regs[i]] + q.changed;
      var rd := Readings(4 - i, acks, replies);
      var rd' := Readings(4 - i - 1, acks[1..], rest);
      assert rd == [reading] + rd';
      ScanFromStoresReadings(mask, i + 1, regs[i := s], acks[1..], rest);
      assert q.regs[i] == s;
      StoresShift(mask, i, q.regs, reading, rd');
    }
  }

  /** Storing one more reading in front of those already stored. */
  lemma StoresShift(mask: byte, i: nat, regs: seq<int>, reading: Reading, rd: seq<Reading>)
    requires i < |regs| && regs[i] == Sample(mask, reading.high, reading.low)
    requires i + 1 + |rd| <= |regs|
    requires forall k :: 0 <= k < |rd| ==> regs[i + 1 + k] == Sample(mask, rd[k].high, rd[k].low)
    ensures var all := [reading] + rd;
      forall k :: 0 <= k < |all| ==> regs[i + k] == Sample(mask, all[k].high, all[k].low)
  {
    var all := [reading] + rd;
    forall k | 0 <= k < |all| ensures regs[i + k] == Sample(mask, all[k].high, all[k].low) {
      if k > 0 {
        assert all[k] == rd[k - 1];
      }
    }
  }

  /** The change mask: bit j for channel j. */
  function ChangeMask(changed: seq<bool>): (r: byte)
    requires |changed| == 4
    ensures r < 16
  {
    (if changed[0] then 1 else 0) + (if changed[1] then 2 else 0)
      + (if changed[2] then 4 else 0) + (if changed[3] then 8 else 0)
  }

  predicate Bit(x: int, j: nat)
  {
    (x / Pow2(j)) % 2 == 1
  }

  lemma ChangeMaskBits(changed: seq<bool>, j: nat)
    requires |changed| == 4 && j < 4
    ensures Bit(ChangeMask(changed), j) <==> changed[j]
  {
    assert Pow2(0) == 1 && Pow2(1) == 2 && Pow2(2) == 4 && Pow2(3) == 8;
  }

  datatype ScanResult = ScanResult(changed: byte, regs: seq<int>, sent: seq<byte>, complete: bool)

  /** `scan`: starts and reads a conversion on each channel in turn.  After
      a full pass, bit j of the result is set exactly when channel j's
      stored sample changed; a failed write or read ends the pass with
      result 0, the channels already read keeping their new samples. */
  function Scan(mask: byte, regs: seq<int>, acks: seq<bool>, replies: seq<Option<Reading>>): (r: ScanResult)
    requires |regs| == 4 && mask < 16
    ensures |r.regs| == 4 && 1 <= |r.sent| <= 4
    ensures forall k :: 0 <= k < |r.sent| ==> r.sent[k] == Select(k, mask)
    ensures r.complete ==> |r.sent| == 4 && forall j :: 0 <= j < 4 ==> (Bit(r.changed, j) <==> r.regs[j] != regs[j])
    ensures !r.complete ==> r.changed == 0 && forall j :: |r.sent| - 1 <= j < 4 ==> r.regs[j] == regs[j]
    ensures var rd := Readings(4, acks, replies);
      && |rd| == (if r.complete then 4 else |r.sent| - 1)
      && forall j :: 0 <= j < |rd| ==> r.regs[j] == Sample(mask, rd[j].high, rd[j].low)
  {
    ScanFromStoresReadings(mask, 0, regs, acks, replies);
    var p := ScanFrom(mask, 0, regs, acks, replies);
    if p.complete then
      var m := ChangeMask(p.changed);
      forall j | 0 <= j < 4 ensures Bit(m, j) <==> p.regs[j] != regs[j] {
        ChangeMaskBits(p.changed, j);
      }
      ScanResult(m, p.regs, p.sent, true)
    else ScanResult(0, p.regs, p.sent, false)
  }

  /** `get`: the stored sample of channel 0..3, else 0. */
  function Get(regs: seq<int>, channel: int): (r: int)
    requires |regs| == 4
    ensures 0 <= channel < 4 ==> r == regs[channel]
    ensures (channel < 0 || channel > 3) ==> r == 0
  {
    if channel < 0 || channel > 3 then 0 else regs[channel % 4]
  }

  /** After a full pass, the result flags exactly the channels `get`
      answers differently for. */
  lemma ScanFlagsWhatGetSees(mask: byte, regs: seq<int>, acks: seq<bool>, replies: seq<Option<Reading>>, channel: int)
    requires |regs| == 4 && mask < 16 && 0 <= channel < 4
    ensures var r := Scan(mask, regs, acks, replies);
      r.complete ==> (Bit(r.changed, channel) <==> Get(r.regs, channel) != Get(regs, channel))
  {
  }

  /** With every write acknowledged and every conversion finished at the
      first read, a pass is complete and stores the four samples in order. */
  lemma ScanReadsAll(mask: byte, regs: seq<int>, rs: seq<Reading>)
    requires |regs| == 4 && mask < 16 && |rs| == 4
    requires forall k :: 0 <= k < 4 ==> rs[k].config < 128
    ensures var r := Scan(mask, regs, [true, true, true, true], seq(4, k requires 0 <= k < 4 => Some(rs[k])));
      && r.complete
      && forall j :: 0 <= j < 4 ==> r.regs[j] == Sample(mask, rs[j].high, rs[j].low)
  {
    var replies := seq(4, k requires 0 <= k < 4 => Some(rs[k]));
    ScanFromReadsAll(mask, 0, regs, [true, true, true, true], replies);
  }

  /** From channel `i` on, with a write acknowledged and a finished
      reading for each channel left, the pass completes and stores the
      readings' samples in order. */
  lemma {:induction false} ScanFromReadsAll(mask: byte, i: nat, regs: seq<int>, acks: seq<bool>, replies: seq<Option<Reading>>)
    requires i <= 4 && |regs| == 4 && mask < 16
    requires |acks| == 4 - i && |replies| == 4 - i
    requires forall k :: 0 <= k < |acks| ==> acks[k]
    requires forall k :: 0 <= k < |replies| ==> replies[k].Some? && replies[k].value.config < 128
    ensures var p := ScanFrom(mask, i, regs, acks, replies);
      && p.complete
      && forall j :: i <= j < 4 ==> p.regs[j] == Sample(mask, replies[j - i].value.high, replies[j - i].value.low)
    decreases 4 - i
  {
    if i < 4 {
      var reading := replies[0].value;
      assert AwaitReady(replies) == Some((reading, replies[1..]));
      var s := Sample(mask, reading.high, reading.low);
      var p := ScanFrom(mask, i, regs, acks, replies);
      var q := ScanFrom(mask, i + 1, regs[i := s], acks[1..], replies[1..]);
      assert p.complete == q.complete && p.regs == q.regs;
      ScanFromReadsAll(mask, i + 1, regs[i := s], acks[1..], replies[1..]);
      assert p.regs[i] == s;
    }
  }
}
