/**
 * The firmware uploader (programmer.cpp).  It reads a firmware file holding
 * Intel HEX lines for the PIC and/or, after a line "UF2", a UF2 image for
 * the Pico.  It sends the HEX text to the sound board in a SysEx message,
 * asks the board to enter its bootloader with a second SysEx message, and
 * copies the UF2 image to the drive that then appears.  The drive is found
 * in the Linux mount table (/proc/self/mountinfo).
 */
module Programmer {
  import opened Common

  // ---------------------------------------------------------------------
  // `split`: the words of a string.

  predicate NoDelim(t: string, delims: string)
  {
    forall k :: 0 <= k < |t| ==> t[k] !in delims
  }

  /** The length of the longest prefix of `s` free of delimiters. */
  function RunLength(s: string, delims: string): (n: nat)
    ensures n <= |s| && NoDelim(s[..n], delims)
    ensures n < |s| ==> s[n] in delims
    decreases |s|
  {
    if s == [] || s[0] in delims then 0
    else
      var m := RunLength(s[1..], delims);
      assert s[..1 + m] == [s[0]] + s[1..][..m];
      1 + m
  }

  /** The reference meaning of `split`: the maximal runs of non-delimiter
      characters, in order. */
  function Tokens(s: string, delims: string): (r: seq<string>)
    ensures forall k :: 0 <= k < |r| ==> |r[k]| > 0 && NoDelim(r[k], delims)
    decreases |s|
  {
    if s == [] then []
    else if s[0] in delims then Tokens(s[1..], delims)
    else
      var n := RunLength(s, delims);
      [s[..n]] + Tokens(s[n..], delims)
  }

  /** `find_first_not_of(delims, from)`, with |s| standing for npos. */
  function FirstNotOf(s: string, delims: string, from: nat): (r: nat)
    requires from <= |s|
    ensures from <= r <= |s|
    ensures forall k :: from <= k < r ==> s[k] in delims
    ensures r < |s| ==> s[r] !in delims
    decreases |s| - from
  {
    if from == |s| || s[from] !in delims then from else FirstNotOf(s, delims, from + 1)
  }

  /** `find_first_of(delims, from)`, with |s| standing for npos. */
  function FirstOf(s: string, delims: string, from: nat): (r: nat)
    requires from <= |s|
    ensures from <= r <= |s|
    ensures forall k :: from <= k < r ==> s[k] !in delims
    ensures r < |s| ==> s[r] in delims
    decreases |s| - from
  {
    if from == |s| || s[from] in delims then from else FirstOf(s, delims, from + 1)
  }

  lemma {:induction false} SkipDelims(s: string, delims: string, i: nat, j: nat)
    requires i <= j <= |s|
    requires forall k :: i <= k < j ==> s[k] in delims
    ensures Tokens(s[i..], delims) == Tokens(s[j..], delims)
    decreases j - i
  {
    if i < j {
      assert s[i..][1..] == s[i + 1..];
      SkipDelims(s, delims, i + 1, j);
    }
  }

  lemma {:induction false} RunLengthIs(t: string, delims: string, n: nat)
    requires n <= |t| && NoDelim(t[..n], delims) && (n < |t| ==> t[n] in delims)
    ensures RunLength(t, delims) == n
    decreases n
  {
    if n > 0 {
      assert t[0] == t[..n][0];
      assert t[1..][..n - 1] == t[..n][1..];
      RunLengthIs(t[1..], delims, n - 1);
    }
  }

  lemma TakeRun(s: string, delims: string, pos: nat, end: nat)
    requires pos < |s| && s[pos] !in delims && end == FirstOf(s, delims, pos)
    ensures Tokens(s[pos..], delims) == [s[pos..end]] + Tokens(s[end..], delims)
  {
    var t := s[pos..];
    assert t[..end - pos] == s[pos..end];
    RunLengthIs(t, delims, end - pos);
    assert t[end - pos..] == s[end..];
  }

  /** `split`, as the loop in the source does it. */
  method Split(s: string, delims: string) returns (r: seq<string>)
    ensures r == Tokens(s, delims)
  {
    r := [];
    var pos := FirstNotOf(s, delims, 0);
    SkipDelims(s, delims, 0, pos);
    while pos < |s|
      invariant pos <= |s|
      invariant pos < |s| ==> s[pos] !in delims
      invariant r + Tokens(s[pos..], delims) == Tokens(s, delims)
      decreases |s| - pos
    {
      var end := FirstOf(s, delims, pos);
      TakeRun(s, delims, pos, end);
      AppendAssoc(r, [s[pos..end]], Tokens(s[end..], delims));
      r := r + [s[pos..end]];
      var next := FirstNotOf(s, delims, end);
      SkipDelims(s, delims, end, next);
      pos := next;
    }
    assert Tokens(s[pos..], delims) == [];
    assert r + [] == r;
  }

  /** Words joined by one separator character. */
  function Join(words: seq<string>, sep: char): string
  {
    if |words| == 0 then []
    else if |words| == 1 then words[0]
    else words[0] + [sep] + Join(words[1..], sep)
  }

  /** Splitting undoes joining with a delimiter: the words come back, none
      merged and none split. */
  lemma {:induction false} SplitJoin(words: seq<string>, sep: char, delims: string)
    requires sep in delims
    requires forall k :: 0 <= k < |words| ==> |words[k]| > 0 && NoDelim(words[k], delims)
    ensures Tokens(Join(words, sep), delims) == words
    decreases |words|
  {
    if |words| == 1 {
      var w := words[0];
      RunLengthIs(w, delims, |w|);
      assert w[..|w|] == w;
      assert w[|w|..] == [];
    } else if |words| > 1 {
      var w := words[0];
      var rest := Join(words[1..], sep);
      var s := w + [sep] + rest;
      RunLengthIs(s, delims, |w|) by {
        assert s[..|w|] == w;
      }
      assert s[..|w|] == w;
      assert s[|w|..] == [sep] + rest;
      assert ([sep] + rest)[1..] == rest;
      SplitJoin(words[1..], sep, delims);
      assert words == [w] + words[1..];
    }
  }

  // ---------------------------------------------------------------------
  // The mount table.

  function Fields(line: string): seq<string>
  {
    Tokens(line, " ")
  }

  /** A mount-table line for device `node` ("major:minor" in field 2) that
      also has the mount point field 4. */
  predicate Mounts(line: string, node: string)
  {
    var p := Fields(line);
    |p| >= 5 && p[2] == node
  }

  /** The automount lookup: the mount point of the first line that mounts
      `node`, if any. */
  method FindMount(lines: seq<string>, node: string) returns (r: Option<string>)
    ensures r.None? <==> forall i :: 0 <= i < |lines| ==> !Mounts(lines[i], node)
    ensures r.Some? ==> exists i :: (0 <= i < |lines| && Mounts(lines[i], node)
      && Fields(lines[i])[4] == r.value
      && forall j :: 0 <= j < i ==> !Mounts(lines[j], node))
  {
    var i := 0;
    while i < |lines|
      invariant i <= |lines|
      invariant forall j :: 0 <= j < i ==> !Mounts(lines[j], node)
    {
      var line := lines[i];
      if line != [] {
        var parts := Split(line, " ");
        if |parts| >= 5 && parts[2] == node {
          return Some(parts[4]);
        }
      }
      i := i + 1;
    }
    return None;
  }

  // ---------------------------------------------------------------------
  // The firmware file.

  const Newline: byte := 10
  const Colon: byte := 58
  /** The line that separates the HEX text from the UF2 image. */
  const Uf2Line: seq<byte> := [85, 70, 50]
  const Uf2Magic: int := 0x9E5D5157

  /** The exit codes of the uploader's checks. */
  datatype Exit = Usage | CannotOpen | InvalidHex(line: nat) | InvalidUf2 | NoFirmware

  function ExitCode(e: Exit): (r: int)
    ensures 1 <= r <= 5
  {
    match e
    case Usage => 1
    case CannotOpen => 2
    case InvalidHex(_) => 3
    case InvalidUf2 => 4
    case NoFirmware => 5
  }

  lemma ExitCodesDistinct(e: Exit, f: Exit)
    ensures ExitCode(e) == ExitCode(f) <==> (e.Usage? == f.Usage? && e.CannotOpen? == f.CannotOpen?
      && e.InvalidHex? == f.InvalidHex? && e.InvalidUf2? == f.InvalidUf2? && e.NoFirmware? == f.NoFirmware?)
  {
  }

  /** The index of the first newline, or |s|. */
  function LineEnd(s: seq<byte>): (r: nat)
    ensures r <= |s| && (r < |s| ==> s[r] == Newline)
    ensures forall k :: 0 <= k < r ==> s[k] != Newline
  {
    if s == [] || s[0] == Newline then 0 else 1 + LineEnd(s[1..])
  }

  /** The outcome of the line loop: a line that is not HEX, or the HEX text
      kept and, if the "UF2" line was met, what follows it. */
  datatype Scan = BadLine(line: nat) | Scanned(hex: seq<byte>, rest: Option<seq<byte>>)

  /** The line loop from line number `line` on.  Only lines ended by a
      newline are looked at: `getline` sets end-of-file on a last line
      without one, and the loop stops before checking it. */
  function ScanLines(file: seq<byte>, line: nat): (r: Scan)
    ensures r.BadLine? ==> r.line >= line
    ensures r.Scanned? && r.hex != [] ==> r.hex[0] == Colon && r.hex[|r.hex| - 1] == Newline
    ensures |file| > 0 && file[0] == Newline ==> r == ScanLines(file[1..], line + 1)
    ensures 0 < LineEnd(file) < |file| && file[..LineEnd(file)] != Uf2Line && file[0] != Colon ==> r == BadLine(line)
    decreases |file|
  {
    var n := LineEnd(file);
    if n == |file| then Scanned([], None)
    else
      var text := file[..n];
      if text == Uf2Line then Scanned([], Some(file[n + 1..]))
      else if text == [] then ScanLines(file[n + 1..], line + 1)
      else if text[0] != Colon then BadLine(line)
      else match ScanLines(file[n + 1..], line + 1)
        case BadLine(k) => BadLine(k)
        case Scanned(h, rest) => Scanned(text + [Newline] + h, rest)
  }

  predicate HexLine(l: seq<byte>)
  {
    |l| > 0 && l[0] == Colon && Newline !in l
  }

  /** HEX lines, each followed by a newline. */
  function HexText(lines: seq<seq<byte>>): seq<byte>
  {
    if lines == [] then [] else lines[0] + [Newline] + HexText(lines[1..])
  }

  lemma {:induction false} LineEndOf(l: seq<byte>, rest: seq<byte>)
    requires Newline !in l
    ensures LineEnd(l + [Newline] + rest) == |l|
    decreases |l|
  {
    if l != [] {
      assert (l + [Newline] + rest)[1..] == l[1..] + [Newline] + rest;
      LineEndOf(l[1..], rest);
    }
  }

  /** A file laid out as the uploader expects (HEX lines, the "UF2" line,
      then the image) is read back as that HEX text and that image. */
  lemma {:induction false} ScanLinesRoundTrip(lines: seq<seq<byte>>, image: seq<byte>, line: nat)
    requires forall k :: 0 <= k < |lines| ==> HexLine(lines[k])
    ensures ScanLines(HexText(lines) + Uf2Line + [Newline] + image, line) == Scanned(HexText(lines), Some(image))
    decreases |lines|
  {
    var f := HexText(lines) + Uf2Line + [Newline] + image;
    if lines == [] {
      assert f == Uf2Line + [Newline] + image;
      LineEndOf(Uf2Line, image);
      assert f[..3] == Uf2Line && f[4..] == image;
    } else {
      var l := lines[0];
      var tail := HexText(lines[1..]) + Uf2Line + [Newline] + image;
      assert f == l + [Newline] + tail by {
        assert HexText(lines) == l + [Newline] + HexText(lines[1..]);
        assert f == (l + [Newline]) + (HexText(lines[1..]) + (Uf2Line + [Newline] + image));
      }
      LineEndOf(l, tail);
      assert f[..|l|] == l;
      assert f[|l| + 1..] == tail;
      assert Uf2Line[0] != l[0];
      ScanLinesRoundTrip(lines[1..], image, line + 1);
    }
  }

  /** A line that is neither empty, "UF2" nor HEX, after HEX and empty
      lines, stops the upload with its own line number. */
  lemma {:induction false} BadLineReported(lines: seq<seq<byte>>, bad: seq<byte>, rest: seq<byte>, line: nat)
    requires forall k :: 0 <= k < |lines| ==> lines[k] == [] || HexLine(lines[k])
    requires bad != [] && Newline !in bad && bad != Uf2Line && bad[0] != Colon
    ensures ScanLines(HexText(lines) + bad + [Newline] + rest, line) == BadLine(line + |lines|)
    decreases |lines|
  {
    var f := HexText(lines) + bad + [Newline] + rest;
    if lines == [] {
      assert f == bad + [Newline] + rest;
      LineEndOf(bad, rest);
      assert f[..|bad|] == bad;
    } else {
      var l := lines[0];
      var tail := HexText(lines[1..]) + bad + [Newline] + rest;
      assert f == l + [Newline] + tail by {
        assert HexText(lines) == l + [Newline] + HexText(lines[1..]);
        assert f == (l + [Newline]) + (HexText(lines[1..]) + (bad + [Newline] + rest));
      }
      LineEndOf(l, tail);
      assert f[..|l|] == l;
      assert f[|l| + 1..] == tail;
      if l != [] {
        assert Uf2Line[0] != l[0];
      }
      BadLineReported(lines[1..], bad, rest, line + 1);
    }
  }

  /** The part of the UF2 image held in memory: `size` bytes are allocated,
      `data` is what is known of them (the rest was never read). */
  datatype Image = Image(size: nat, data: seq<byte>)

  datatype Firmware = Firmware(hex: seq<byte>, image: Option<Image>)

  function Min(a: int, b: int): int
  {
    if a < b then a else b
  }

  /** The image: "UF2\n" (the line that ended the loop), the 508 header
      bytes, then as much of the rest of the file as was asked for and is
      there. */
  function ImageOf(rest: seq<byte>, size: nat): (r: Image)
    requires |rest| >= 508 && size >= 512
    ensures r.size == size && 512 <= |r.data| <= size
    ensures r.data[..4] == Uf2Line + [Newline] && r.data[4..512] == rest[..508]
  {
    var more := rest[508..Min(|rest|, 508 + size - 512)];
    Image(size, Uf2Line + [Newline] + rest[..508] + more)
  }

  /** The image size as written: the block count times 512 in 32-bit
      unsigned arithmetic. */
  function Uf2SizeAsWritten(numBlocks: int): (r: nat)
    requires 0 <= numBlocks < 0x1_0000_0000
    ensures r < 0x1_0000_0000 && r % 512 == 0
  {
    (numBlocks * 512) % 0x1_0000_0000
  }

  /** The UF2 part as written: a short read or a wrong second magic number
      is rejected; a size of 0 counts as no image. */
  function ReadUf2AsWritten(rest: seq<byte>): (r: Result<Option<Image>, Exit>)
    ensures r.Err? <==> |rest| < 508 || LittleEndian32(rest[..4]) != Uf2Magic
    ensures r.Ok? && r.value.Some? ==> r.value.value.size == Uf2SizeAsWritten(LittleEndian32(rest[20..24]))
  {
    if |rest| < 508 || LittleEndian32(rest[..4]) != Uf2Magic then Err(InvalidUf2)
    else
      var size := Uf2SizeAsWritten(LittleEndian32(rest[20..24]));
      if size == 0 then Ok(None) else Ok(Some(ImageOf(rest, size)))
  }

  /** The UF2 part with the block count checked and the size computed in
      full: an image always holds its 512-byte first block. */
  function ReadUf2(rest: seq<byte>): (r: Result<Option<Image>, Exit>)
    ensures r.Err? <==> |rest| < 508 || LittleEndian32(rest[..4]) != Uf2Magic || LittleEndian32(rest[20..24]) == 0
    ensures r.Ok? ==> (r.value.Some?
      && r.value.value.size == LittleEndian32(rest[20..24]) * 512
      && 512 <= |r.value.value.data| <= r.value.value.size)
  {
    if |rest| < 508 || LittleEndian32(rest[..4]) != Uf2Magic then Err(InvalidUf2)
    else
      var blocks := LittleEndian32(rest[20..24]);
      if blocks == 0 then Err(InvalidUf2) else Ok(Some(ImageOf(rest, blocks * 512)))
  }

  /** As written, a block count of 0 or 2^23 gives a 0-byte buffer, into
      which the first 512 bytes are nonetheless copied, and the UF2 image
      then counts as absent; a count of 2^23 + 1 allocates a single block. */
  lemma ZeroSizeImageAsWritten()
    ensures Uf2SizeAsWritten(0) == 0 && Uf2SizeAsWritten(0x80_0000) == 0
    ensures Uf2SizeAsWritten(0x80_0001) == 512
  {
  }

  /** The corrected reader never yields a buffer smaller than what is copied
      into it, and never silently drops a UF2 part. */
  lemma ReadUf2Sound(rest: seq<byte>)
    ensures ReadUf2(rest).Ok? ==> (ReadUf2(rest).value.Some?
      && ReadUf2(rest).value.value.size >= 512)
  {
  }

  function Extract(file: seq<byte>, readUf2: seq<byte> -> Result<Option<Image>, Exit>): Result<Firmware, Exit>
  {
    match ScanLines(file, 1)
    case BadLine(k) => Err(InvalidHex(k))
    case Scanned(hex, rest) =>
      var image := if rest.None? then Ok(None) else readUf2(rest.value);
      if image.Err? then Err(image.error)
      else if image.value.None? && hex == [] then Err(NoFirmware)
      else Ok(Firmware(hex, image.value))
  }

  /** What the uploader does before talking to the board, as written:
      argument count, the opened file (None if it cannot be opened). */
  function PrepareAsWritten(argc: int, file: Option<seq<byte>>): (r: Result<Firmware, Exit>)
    ensures argc < 2 ==> r == Err(Usage)
    ensures argc >= 2 && file.None? ==> r == Err(CannotOpen)
  {
    if argc < 2 then Err(Usage)
    else if file.None? then Err(CannotOpen)
    else Extract(file.value, ReadUf2AsWritten)
  }

  /** The same with the corrected UF2 reader. */
  function Prepare(argc: int, file: Option<seq<byte>>): (r: Result<Firmware, Exit>)
    ensures argc < 2 ==> r == Err(Usage)
    ensures argc >= 2 && file.None? ==> r == Err(CannotOpen)
    ensures r.Ok? ==> r.value.hex != [] || r.value.image.Some?
    ensures r.Ok? && r.value.hex != [] ==> r.value.hex[0] == Colon && r.value.hex[|r.value.hex| - 1] == Newline
    ensures r.Ok? && r.value.image.Some? ==> r.value.image.value.size >= 512
  {
    if argc < 2 then Err(Usage)
    else if file.None? then Err(CannotOpen)
    else Extract(file.value, ReadUf2)
  }

  /** A well-formed firmware file is read back as its HEX text and image. */
  lemma PrepareRoundTrip(lines: seq<seq<byte>>, image: seq<byte>)
    requires forall k :: 0 <= k < |lines| ==> HexLine(lines[k])
    requires |image| >= 508 && LittleEndian32(image[..4]) == Uf2Magic && LittleEndian32(image[20..24]) > 0
    ensures Prepare(2, Some(HexText(lines) + Uf2Line + [Newline] + image))
      == Ok(Firmware(HexText(lines), Some(ImageOf(image, LittleEndian32(image[20..24]) * 512))))
  {
    var file := HexText(lines) + Uf2Line + [Newline] + image;
    ScanLinesRoundTrip(lines, image, 1);
    var read := ReadUf2(image);
    assert read == Ok(Some(ImageOf(image, LittleEndian32(image[20..24]) * 512)));
    assert Extract(file, ReadUf2) == Ok(Firmware(HexText(lines), read.value));
  }

  // ---------------------------------------------------------------------
  // The SysEx messages.

  /** The manufacturer and device prefix of both messages. */
  const Prefix: seq<byte> := [0xF0, 0x00, 0x46, 0x71]

  /** The HEX upload: prefix, command 0, a zero byte, the text, end of SysEx. */
  function HexFrame(text: seq<byte>): (r: seq<byte>)
    ensures |r| == |text| + 7
    ensures r[..4] == Prefix && r[4] == 0 && r[5] == 0 && r[|r| - 1] == 0xF7
  {
    Prefix + [0x00, 0x00] + text + [0xF7]
  }

  /** The request to enter the bootloader. */
  const BootloaderRequest: seq<byte> := Prefix + [0x01, 0x00, 0xF7]

  /** What a receiver takes the HEX upload to carry. */
  function Unframe(frame: seq<byte>): Option<seq<byte>>
  {
    if |frame| >= 7 && frame[..6] == Prefix + [0x00, 0x00] && frame[|frame| - 1] == 0xF7
    then Some(frame[6..|frame| - 1]) else None
  }

  lemma HexFrameRoundTrip(text: seq<byte>)
    ensures Unframe(HexFrame(text)) == Some(text)
    ensures Unframe(BootloaderRequest) == None
  {
    var f := HexFrame(text);
    assert f[..6] == Prefix + [0x00, 0x00];
    assert f[6..|f| - 1] == text;
    assert BootloaderRequest[4] == 1;
  }

  /** A SysEx message: 0xF0 first, 0xF7 last, only data bytes between. */
  predicate SysEx(m: seq<byte>)
  {
    |m| >= 2 && m[0] == 0xF0 && m[|m| - 1] == 0xF7 && forall k :: 0 < k < |m| - 1 ==> m[k] < 128
  }

  /** The HEX upload is a valid SysEx message exactly when the text is
      7-bit, which HEX text is; the bootloader request always is. */
  lemma HexFrameIsSysEx(text: seq<byte>)
    ensures SysEx(HexFrame(text)) <==> forall k :: 0 <= k < |text| ==> text[k] < 128
    ensures SysEx(BootloaderRequest)
  {
    var f := HexFrame(text);
    if SysEx(f) {
      forall k | 0 <= k < |text| ensures text[k] < 128 {
        assert f[k + 6] == text[k];
      }
    }
  }

  /** The messages sent, in order: the HEX upload if there is HEX text, then
      the bootloader request if there is a UF2 image. */
  function Messages(fw: Firmware): (r: seq<seq<byte>>)
    ensures |r| == (if fw.hex != [] then 1 else 0) + (if fw.image.Some? then 1 else 0)
    ensures fw.hex != [] ==> r[0] == HexFrame(fw.hex)
    ensures fw.image.Some? ==> r[|r| - 1] == BootloaderRequest
  {
    (if fw.hex != [] then [HexFrame(fw.hex)] else []) + (if fw.image.Some? then [BootloaderRequest] else [])
  }

  /** Every accepted firmware file leads to at least one message. */
  lemma PreparedSendsSomething(argc: int, file: Option<seq<byte>>)
    ensures Prepare(argc, file).Ok? ==> |Messages(Prepare(argc, file).value)| >= 1
  {
  }
}
