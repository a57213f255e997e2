/** The archive writer of `artifact.package`: ustar headers, block padding, end marker. */
module Tar {
  type Byte = x: int | 0 <= x < 256
  type CodeUnit = x: int | 0 <= x < 65536

  const BLOCK := 512
  const SPACE: Byte := 0x20
  const ZERO_DIGIT: Byte := 0x30

  /** A file to pack; its name is a string of UTF-16 code units. */
  datatype File = File(name: seq<CodeUnit>, content: seq<Byte>)

  // ---------- bytes ----------

  function Fill(b: Byte, n: nat): (bytes: seq<Byte>)
    ensures |bytes| == n && forall i :: 0 <= i < n ==> bytes[i] == b
  {
    seq(n, _ => b)
  }

  /** The low byte of every code unit: Node's "ascii" encoding. */
  function Ascii(s: seq<CodeUnit>): (bytes: seq<Byte>)
    ensures |bytes| == |s| && forall i :: 0 <= i < |s| ==> bytes[i] == s[i] % 256
  {
    seq(|s|, i requires 0 <= i < |s| => s[i] % 256)
  }

  function Octal(n: nat): (digits: seq<Byte>)
    ensures |digits| > 0
  {
    (if n < 8 then [] else Octal(n / 8)) + [ZERO_DIGIT + n % 8]
  }

  function PadStart(s: seq<Byte>, n: nat): (r: seq<Byte>)
    ensures |r| == if |s| < n then n else |s|
  {
    if |s| < n then Fill(ZERO_DIGIT, n - |s|) + s else s
  }

  function Prefix(s: seq<Byte>, n: nat): (r: seq<Byte>)
    ensures |r| == if |s| < n then |s| else n
  {
    if |s| < n then s else s[..n]
  }

  function Sum(bytes: seq<Byte>): nat {
    if bytes == [] then 0 else Sum(bytes[..|bytes| - 1]) + bytes[|bytes| - 1]
  }

  // ---------- header ----------

  /** `buffer` with `val` written at `offset`. */
  function Overlay(buffer: seq<Byte>, offset: nat, val: seq<Byte>): (r: seq<Byte>)
    requires offset + |val| <= |buffer|
    ensures |r| == |buffer|
  {
    buffer[..offset] + val + buffer[offset + |val|..]
  }

  function NumberField(n: nat): (field: seq<Byte>)
    ensures |field| == 12
  {
    Prefix(PadStart(Octal(n), 11) + [0], 12)
  }

  const MODE: seq<Byte> := [0x30, 0x30, 0x30, 0x30, 0x36, 0x34, 0x34] // "0000644"
  const OWNER: seq<Byte> := [0x30, 0x30, 0x30, 0x30, 0x30, 0x30, 0x30] // "0000000"
  const MAGIC: seq<Byte> := [0x75, 0x73, 0x74, 0x61, 0x72] // "ustar"
  const VERSION: seq<Byte> := [0x30, 0x30]
  const REGULAR: Byte := 0x30

  /** The header before its checksum is known: the checksum field holds eight spaces. */
  function Unsummed(name: seq<CodeUnit>, size: nat, mtime: nat): (header: seq<Byte>)
    ensures |header| == BLOCK
  {
    var h0 := Overlay(Fill(0, BLOCK), 0, Prefix(Ascii(name), 100));
    var h1 := Overlay(h0, 100, MODE);
    var h2 := Overlay(h1, 108, OWNER);
    var h3 := Overlay(h2, 116, OWNER);
    var h4 := Overlay(h3, 124, NumberField(size));
    var h5 := Overlay(h4, 136, NumberField(mtime / 1000));
    var h6 := Overlay(h5, 148, Fill(SPACE, 8));
    var h7 := Overlay(h6, 156, [REGULAR]);
    Overlay(Overlay(h7, 257, MAGIC), 263, VERSION)
  }

  lemma {:induction false} SumBound(bytes: seq<Byte>)
    ensures Sum(bytes) <= 255 * |bytes|
    decreases |bytes|
  {
    if bytes != [] {
      SumBound(bytes[..|bytes| - 1]);
    }
  }

  lemma {:induction false} OctalLength(n: nat, k: nat)
    requires k > 0
    ensures |Octal(n)| <= k <==> n < Pow8(k)
    decreases n
  {
    if n < 8 {
      Pow8AtLeast(k);
    } else if k > 1 {
      OctalLength(n / 8, k - 1);
    }
  }

  function Pow8(k: nat): (p: nat)
    ensures p > 0
  {
    if k == 0 then 1 else 8 * Pow8(k - 1)
  }

  lemma {:induction false} Pow8AtLeast(k: nat)
    requires k > 0
    ensures Pow8(k) >= 8
    decreases k
  {
    if k > 1 {
      Pow8AtLeast(k - 1);
    }
  }

  /** Six octal digits are always enough for the checksum of a header. */
  lemma ChecksumFits(header: seq<Byte>)
    requires |header| == BLOCK
    ensures |Octal(Sum(header))| <= 6
  {
    SumBound(header);
    OctalLength(Sum(header), 6);
    assert Pow8(6) == 262144;
  }

  function ChecksumField(header: seq<Byte>): (field: seq<Byte>)
    requires |header| == BLOCK
    ensures |field| == 6
  {
    ChecksumFits(header);
    PadStart(Octal(Sum(header)), 6)
  }

  /** A whole header block. */
  function Header(name: seq<CodeUnit>, size: nat, mtime: nat): (header: seq<Byte>)
    ensures |header| == BLOCK
  {
    var unsummed := Unsummed(name, size, mtime);
    Overlay(Overlay(unsummed, 148, ChecksumField(unsummed)), 155, [SPACE])
  }

  /** Writes `val` into the buffer in place. */
  method WriteAt(buffer: array<Byte>, offset: nat, val: seq<Byte>)
    requires offset + |val| <= buffer.Length
    modifies buffer
    ensures buffer[..] == Overlay(old(buffer[..]), offset, val)
  {
    for i := 0 to |val|
      invariant forall k :: 0 <= k < i ==> buffer[offset + k] == val[k]
      invariant forall k :: 0 <= k < buffer.Length && !(offset <= k < offset + i) ==> buffer[k] == old(buffer[k])
    {
      buffer[offset + i] := val[i];
    }
    forall k | 0 <= k < buffer.Length
      ensures buffer[k] == Overlay(old(buffer[..]), offset, val)[k]
    {
      if offset <= k < offset + |val| {
        assert buffer[offset + (k - offset)] == val[k - offset];
      }
    }
  }

  /** The constant part of the header and its number fields, checksum still blank. */
  method WriteFields(header: array<Byte>, name: seq<CodeUnit>, size: nat, mtime: nat)
    requires header.Length == BLOCK && header[..] == Fill(0, BLOCK)
    modifies header
    ensures header[..] == Unsummed(name, size, mtime)
  {
    WriteAt(header, 0, Prefix(Ascii(name), 100));
    WriteAt(header, 100, MODE);
    WriteAt(header, 108, OWNER);
    WriteAt(header, 116, OWNER);
    WriteAt(header, 124, NumberField(size));
    WriteAt(header, 136, NumberField(mtime / 1000));
    WriteAt(header, 148, Fill(SPACE, 8));
    WriteAt(header, 156, [REGULAR]);
    WriteAt(header, 257, MAGIC);
    WriteAt(header, 263, VERSION);
  }

  method SumBytes(header: array<Byte>) returns (sum: nat)
    ensures sum == Sum(header[..])
  {
    sum := 0;
    for i := 0 to header.Length
      invariant sum == Sum(header[..i])
    {
      assert header[..i + 1][..i] == header[..i];
      sum := sum + header[i];
    }
    assert header[..header.Length] == header[..];
  }

  method UstarHeader(name: seq<CodeUnit>, size: nat, mtime: nat) returns (header: array<Byte>)
    ensures fresh(header) && header[..] == Header(name, size, mtime)
  {
    header := new Byte[512](_ => 0);
    assert header[..] == Fill(0, BLOCK);
    WriteFields(header, name, size, mtime);
    var sum := SumBytes(header);
    ChecksumFits(header[..]);
    WriteAt(header, 148, PadStart(Octal(sum), 6));
    WriteAt(header, 155, [SPACE]);
  }

  // ---------- archive ----------

  function Padding(n: nat): nat {
    if n % BLOCK == 0 then 0 else BLOCK - n % BLOCK
  }

  function PadToBlock(content: seq<Byte>): (padded: seq<Byte>)
    ensures |padded| % BLOCK == 0
    ensures |content| <= |padded| < |content| + BLOCK && padded[..|content|] == content
    ensures forall i :: |content| <= i < |padded| ==> padded[i] == 0
  {
    content + Fill(0, Padding(|content|))
  }

  /** One file: its header block, then its padded content. */
  function Entry(file: File, mtime: nat): (bytes: seq<Byte>)
    ensures |bytes| % BLOCK == 0
  {
    Header(file.name, |file.content|, mtime) + PadToBlock(file.content)
  }

  /** The archive: every file in order, then two zero blocks. */
  function Archive(files: seq<File>, mtime: nat): seq<Byte> {
    if files == [] then Fill(0, 2 * BLOCK) else Entry(files[0], mtime) + Archive(files[1..], mtime)
  }

  /** The parts pushed so far. */
  function Parts(files: seq<File>, mtime: nat): seq<Byte> {
    if files == [] then [] else Parts(files[..|files| - 1], mtime) + Entry(files[|files| - 1], mtime)
  }

  lemma {:induction false} PartsThenEnd(front: seq<File>, back: seq<File>, mtime: nat)
    ensures Parts(front, mtime) + Archive(back, mtime) == Archive(front + back, mtime)
    decreases |front|
  {
    if front == [] {
      assert front + back == back;
    } else {
      var last := front[|front| - 1];
      var init := front[..|front| - 1];
      assert front + back == init + ([last] + back);
      assert ([last] + back)[1..] == back;
      PartsThenEnd(init, [last] + back, mtime);
    }
  }

  /** One iteration: push the header, push the padded content. */
  method PushEntry(parts: seq<Byte>, file: File, mtime: nat) returns (pushed: seq<Byte>)
    ensures pushed == parts + Entry(file, mtime)
  {
    var header := UstarHeader(file.name, |file.content|, mtime);
    pushed := parts + header[..];
    pushed := pushed + PadToBlock(file.content);
  }

  lemma PartsSnoc(files: seq<File>, i: nat, mtime: nat)
    requires i < |files|
    ensures Parts(files[..i + 1], mtime) == Parts(files[..i], mtime) + Entry(files[i], mtime)
  {
    assert files[..i + 1][..i] == files[..i];
  }

  lemma PartsAll(files: seq<File>, mtime: nat)
    ensures Parts(files[..|files|], mtime) + Fill(0, 2 * BLOCK) == Archive(files, mtime)
  {
    assert files[..|files|] == files && files + [] == files;
    PartsThenEnd(files, [], mtime);
  }

  method BuildTar(files: seq<File>, mtime: nat) returns (tar: seq<Byte>)
    ensures tar == Archive(files, mtime)
  {
    tar := [];
    for i := 0 to |files|
      invariant tar == Parts(files[..i], mtime)
    {
      PartsSnoc(files, i, mtime);
      tar := PushEntry(tar, files[i], mtime);
    }
    PartsAll(files, mtime);
    tar := tar + Fill(0, 1024);
  }
}
