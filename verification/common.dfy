/**
 * Shared vocabulary: bytes, optional values and ASCII helpers used by every
 * component of the PSG model.
 */
module Common {

  /** An 8-bit unsigned value, as carried on the serial line, MIDI or I2C. */
  type byte = x: int | 0 <= x < 256

  /** A value that may be absent: an unset last volume, an unknown wave name. */
  datatype Option<+T> = None | Some(value: T)

  /** A value or the reason it could not be produced. */
  datatype Result<+T, +E> = Ok(value: T) | Err(error: E)

  /** `InterpolationMode`, shared by the plugins and the driver. */
  datatype Interpolation = NoInterpolation | Linear

  predicate IsUpper(c: char)
  {
    'A' <= c <= 'Z'
  }

  /** The C library's `tolower` in the "C" locale. */
  function ToLowerChar(c: char): (r: char)
    ensures !IsUpper(r)
    ensures !IsUpper(c) ==> r == c
    ensures IsUpper(c) ==> r as int == c as int + 32
  {
    if IsUpper(c) then (c as int + 32) as char else c
  }

  /** `std::transform(s.begin(), s.end(), s.begin(), tolower)`. */
  function ToLower(s: string): (r: string)
    ensures |r| == |s|
    ensures forall i :: 0 <= i < |s| ==> r[i] == ToLowerChar(s[i])
  {
    if s == [] then [] else [ToLowerChar(s[0])] + ToLower(s[1..])
  }

  /** A lower-cased string never contains an upper-case letter. */
  lemma ToLowerHasNoUpper(s: string, i: nat)
    requires i < |s|
    ensures !IsUpper(ToLower(s)[i])
  {
  }

  /** A string with no upper-case letter is its own lower-case form. */
  lemma ToLowerOfLower(s: string)
    requires forall i :: 0 <= i < |s| ==> !IsUpper(s[i])
    ensures ToLower(s) == s
  {
  }

  /** A string that lower-cases each character of `s` in place is its
      lower-case form. */
  lemma ToLowerPointwise(s: string, t: string)
    requires |t| == |s|
    requires forall i :: 0 <= i < |s| ==> t[i] == ToLowerChar(s[i])
    ensures ToLower(s) == t
  {
  }

  /** Lower-casing twice is lower-casing once. */
  lemma ToLowerIdempotent(s: string)
    ensures ToLower(ToLower(s)) == ToLower(s)
  {
    var t := ToLower(s);
    forall i | 0 <= i < |t|
      ensures !IsUpper(t[i])
    {
      ToLowerHasNoUpper(s, i);
    }
    ToLowerOfLower(t);
  }

  lemma AppendAssoc<T>(x: seq<T>, y: seq<T>, z: seq<T>)
    ensures x + (y + z) == (x + y) + z
  {
  }

  /** A byte is the sum of its bits, most significant first. */
  lemma ByteBits(b: byte)
    ensures b == 128 * ((b / 128) % 2) + 64 * ((b / 64) % 2) + 32 * ((b / 32) % 2)
              + 16 * ((b / 16) % 2) + 8 * ((b / 8) % 2) + 4 * ((b / 4) % 2)
              + 2 * ((b / 2) % 2) + b % 2
  {
    var q1 := b / 2;
    var q2 := q1 / 2;
    var q3 := q2 / 2;
    var q4 := q3 / 2;
    var q5 := q4 / 2;
    var q6 := q5 / 2;
    var q7 := q6 / 2;
    assert b / 4 == q2 && b / 8 == q3 && b / 16 == q4;
    assert b / 32 == q5 && b / 64 == q6 && b / 128 == q7;
    assert b == 2 * q1 + b % 2;
    assert q1 == 2 * q2 + q1 % 2;
    assert q2 == 2 * q3 + q2 % 2;
    assert q3 == 2 * q4 + q3 % 2;
    assert q4 == 2 * q5 + q4 % 2;
    assert q5 == 2 * q6 + q5 % 2;
    assert q6 == 2 * q7 + q6 % 2;
    assert q7 == q7 % 2;
  }

  /** Little-endian 16-bit value of two bytes, as `fread(&u16, 2, 1, f)` reads it. */
  function LittleEndian16(lo: byte, hi: byte): (r: int)
    ensures 0 <= r < 0x1_0000
    ensures r % 256 == lo && r / 256 == hi
  {
    lo as int + 256 * (hi as int)
  }

  /** The number whose base-256 digits, least significant first, are `b`. */
  function FromDigits(b: seq<byte>): (r: nat)
  {
    if b == [] then 0 else b[0] + 0x100 * FromDigits(b[1..])
  }

  /** Little-endian 32-bit value of four bytes: byte k is its base-256 digit k. */
  function LittleEndian32(b: seq<byte>): (r: int)
    requires |b| == 4
    ensures 0 <= r < 0x1_0000_0000
    ensures r == FromDigits(b)
  {
    var b3 := b[3..];
    assert b3[1..] == [] && FromDigits(b3) == b[3];
    assert b[2..][1..] == b3 && FromDigits(b[2..]) == b[2] as int + 0x100 * (b[3] as int);
    assert b[1..][1..] == b[2..] && FromDigits(b[1..]) == b[1] as int + 0x100 * FromDigits(b[2..]);
    b[0] as int + 0x100 * (b[1] as int) + 0x1_0000 * (b[2] as int) + 0x100_0000 * (b[3] as int)
  }

  /** Each byte can be read back from the value as its digit. */
  lemma LittleEndian32Digits(b: seq<byte>)
    requires |b| == 4
    ensures var r := LittleEndian32(b);
      && r % 0x100 == b[0] && (r / 0x100) % 0x100 == b[1]
      && (r / 0x1_0000) % 0x100 == b[2] && r / 0x100_0000 == b[3]
  {
    var lo := LittleEndian16(b[0], b[1]);
    var hi := LittleEndian16(b[2], b[3]);
    assert LittleEndian32(b) == lo + 0x1_0000 * hi;
    DigitsSplit(lo, hi);
  }

  /** Splitting `lo + 0x10000 * hi` back into its two 16-bit halves. */
  lemma DigitsSplit(lo: int, hi: int)
    requires 0 <= lo < 0x1_0000 && 0 <= hi < 0x1_0000
    ensures var r := lo + 0x1_0000 * hi;
      && r % 0x100 == lo % 0x100 && (r / 0x100) % 0x100 == lo / 0x100
      && (r / 0x1_0000) % 0x100 == hi % 0x100 && r / 0x100_0000 == hi / 0x100
  {
    var r := lo + 0x1_0000 * hi;
    assert r / 0x1_0000 == hi;
    assert r / 0x100 == lo / 0x100 + 0x100 * hi;
    assert r / 0x100_0000 == hi / 0x100;
  }

  /** Two's-complement truncation of an integer to `int16_t`. */
  function Int16(x: int): (r: int)
    ensures -0x8000 <= r < 0x8000
    ensures (r - x) % 0x1_0000 == 0
  {
    var m := x % 0x1_0000;
    if m >= 0x8000 then m - 0x1_0000 else m
  }
}
