/**
 A reader of the ustar interchange format, after the "ustar Interchange Format" section of
 the `pax` utility in IEEE Std 1003.1 (POSIX.1), and the round trip with the writer.
 */
module TarReader {
  import opened Wrappers
  import opened Tar

  /** Mode and modification time, in seconds, are None when their field does not hold a number. */
  datatype Member = Member(name: seq<Byte>, mode: Option<nat>, modified: Option<nat>, content: seq<Byte>)

  // ---------- fields ----------

  /** A character string ends at its first NUL, or fills its field. */
  function UntilNul(field: seq<Byte>): seq<Byte> {
    if field == [] || field[0] == 0 then [] else [field[0]] + UntilNul(field[1..])
  }

  predicate IsDigit(b: Byte) {
    ZERO_DIGIT <= b < ZERO_DIGIT + 8
  }

  predicate IsTerminator(b: Byte) {
    b == 0 || b == SPACE
  }

  function DigitsOf(field: seq<Byte>): (n: nat)
    ensures n <= |field| && forall i :: 0 <= i < n ==> IsDigit(field[i])
    ensures n < |field| ==> !IsDigit(field[n])
  {
    if field == [] || !IsDigit(field[0]) then 0 else 1 + DigitsOf(field[1..])
  }

  function Value(digits: seq<Byte>): nat
    requires forall b <- digits :: IsDigit(b)
  {
    if digits == [] then 0
    else
      assert IsDigit(digits[|digits| - 1]);
      Value(digits[..|digits| - 1]) * 8 + (digits[|digits| - 1] - ZERO_DIGIT)
  }

  /** Octal digits terminated by one or more spaces or NULs. */
  function Number(field: seq<Byte>): Option<nat> {
    var n := DigitsOf(field);
    if 0 < n < |field| && forall i :: n <= i < |field| ==> IsTerminator(field[i]) then Some(Value(field[..n]))
    else None
  }

  // ---------- blocks ----------

  predicate AllZero(bytes: seq<Byte>) {
    forall b <- bytes :: b == 0
  }

  /** The sum of the header's bytes with the checksum field taken as spaces. */
  function HeaderSum(header: seq<Byte>): nat
    requires |header| == BLOCK
  {
    Sum(Overlay(header, 148, Fill(SPACE, 8)))
  }

  const USTAR: seq<Byte> := [0x75, 0x73, 0x74, 0x61, 0x72, 0] // "ustar" and a NUL
  const FIRST_VERSION: seq<Byte> := [0x30, 0x30] // "00"
  const REGULAR_FILE: Byte := 0x30 // '0'

  /** A header block of a regular file: magic, version and checksum verify, the size is readable. */
  predicate ValidHeader(header: seq<Byte>)
    requires |header| == BLOCK
  {
    && header[257..263] == USTAR
    && header[263..265] == FIRST_VERSION
    && header[156] == REGULAR_FILE
    && Number(header[148..156]) == Some(HeaderSum(header))
    && Number(header[124..136]).Some?
  }

  const SLASH: Byte := 0x2F

  /** The prefix field, when it is not empty, stands before the name, with a slash in between. */
  function MemberName(header: seq<Byte>): seq<Byte>
    requires |header| == BLOCK
  {
    var prefix, name := UntilNul(header[345..500]), UntilNul(header[0..100]);
    if prefix == [] then name else prefix + [SLASH] + name
  }

  function ReadMember(header: seq<Byte>, content: seq<Byte>): Member
    requires |header| == BLOCK
  {
    Member(MemberName(header), Number(header[100..108]), Number(header[136..148]), content)
  }

  /** All members up to the end marker of two zero blocks; None when the archive is malformed. */
  function ReadTar(bytes: seq<Byte>): Option<seq<Member>>
    decreases |bytes|
  {
    if |bytes| < BLOCK then None
    else
      var header := bytes[..BLOCK];
      if AllZero(header) then
        if |bytes| >= 2 * BLOCK && AllZero(bytes[BLOCK..2 * BLOCK]) then Some([]) else None
      else if !ValidHeader(header) then None
      else
        var size := Number(header[124..136]).value;
        var end := BLOCK + size + Padding(size);
        if end > |bytes| then None
        else
          match ReadTar(bytes[end..])
          case None => None
          case Some(rest) => Some([ReadMember(header, bytes[BLOCK..BLOCK + size])] + rest)
  }

  // ---------- octal numbers ----------

  lemma {:induction false} OctalIsDigits(n: nat)
    ensures forall b <- Octal(n) :: IsDigit(b)
    ensures Value(Octal(n)) == n
    decreases n
  {
    var init := if n < 8 then [] else Octal(n / 8);
    if n >= 8 {
      OctalIsDigits(n / 8);
    }
    assert Octal(n) == init + [ZERO_DIGIT + n % 8];
    LastDigit(init, ZERO_DIGIT + n % 8);
  }

  lemma LastDigit(init: seq<Byte>, digit: Byte)
    requires IsDigit(digit) && forall b <- init :: IsDigit(b)
    ensures Value(init + [digit]) == 8 * Value(init) + (digit - ZERO_DIGIT)
  {
    assert (init + [digit])[..|init|] == init;
  }

  lemma {:induction false} LeadingZeros(k: nat, digits: seq<Byte>)
    requires forall b <- digits :: IsDigit(b)
    ensures forall b <- Fill(ZERO_DIGIT, k) + digits :: IsDigit(b)
    ensures Value(Fill(ZERO_DIGIT, k) + digits) == Value(digits)
    decreases k + |digits|
  {
    var both := Fill(ZERO_DIGIT, k) + digits;
    if digits != [] {
      var init := digits[..|digits| - 1];
      LeadingZeros(k, init);
      assert both[..|both| - 1] == Fill(ZERO_DIGIT, k) + init;
    } else if k > 0 {
      LeadingZeros(k - 1, []);
      assert both[..|both| - 1] == Fill(ZERO_DIGIT, k - 1) + [];
    }
  }

  lemma PaddedValue(n: nat, k: nat)
    ensures forall b <- PadStart(Octal(n), k) :: IsDigit(b)
    ensures Value(PadStart(Octal(n), k)) == n
  {
    OctalIsDigits(n);
    PaddedDigits(Octal(n), k);
  }

  lemma PaddedDigits(digits: seq<Byte>, k: nat)
    requires forall b <- digits :: IsDigit(b)
    ensures forall b <- PadStart(digits, k) :: IsDigit(b)
    ensures Value(PadStart(digits, k)) == Value(digits)
  {
    if |digits| < k {
      LeadingZeros(k - |digits|, digits);
    }
  }

  lemma {:induction false} DigitsThenTerminators(digits: seq<Byte>, rest: seq<Byte>)
    requires (forall b <- digits :: IsDigit(b)) && (rest != [] ==> !IsDigit(rest[0]))
    ensures DigitsOf(digits + rest) == |digits|
    decreases |digits|
  {
    if digits == [] {
      assert digits + rest == rest;
    } else {
      assert (digits + rest)[1..] == digits[1..] + rest;
      DigitsThenTerminators(digits[1..], rest);
    }
  }

  /** A size field can be read back exactly when eleven digits suffice. */
  lemma NumberFieldReads(n: nat)
    ensures Number(NumberField(n)) == if n < Pow8(11) then Some(n) else None
  {
    var digits := PadStart(Octal(n), 11);
    PaddedValue(n, 11);
    OctalLength(n, 11);
    if n < Pow8(11) {
      assert NumberField(n) == digits + [0];
      DigitsThenTerminators(digits, [0]);
      assert (digits + [0])[..11] == digits;
    } else {
      assert NumberField(n) == digits[..12];
      assert digits[..12] + [] == digits[..12];
      DigitsThenTerminators(digits[..12], []);
    }
  }

  // ---------- the fields of a written header ----------

  lemma OverlayApart(buffer: seq<Byte>, offset: nat, val: seq<Byte>, lo: nat, hi: nat)
    requires offset + |val| <= |buffer| && lo <= hi <= |buffer| && (hi <= offset || offset + |val| <= lo)
    ensures Overlay(buffer, offset, val)[lo..hi] == buffer[lo..hi]
  {
  }

  /** A field survives every later write elsewhere. */
  lemma SurvivesConstants(buffer: seq<Byte>, lo: nat, hi: nat)
    requires |buffer| == BLOCK && lo <= hi && (hi <= 156 || 157 <= lo) && (hi <= 257 || 265 <= lo)
    requires hi <= BLOCK
    ensures Overlay(Overlay(Overlay(buffer, 156, [REGULAR]), 257, MAGIC), 263, VERSION)[lo..hi] == buffer[lo..hi]
  {
    var h7 := Overlay(buffer, 156, [REGULAR]);
    var h8 := Overlay(h7, 257, MAGIC);
    OverlayApart(h8, 263, VERSION, lo, hi);
    OverlayApart(h7, 257, MAGIC, lo, hi);
    OverlayApart(buffer, 156, [REGULAR], lo, hi);
  }

  lemma UnsummedName(name: seq<CodeUnit>, size: nat, mtime: nat)
    ensures var raw := Prefix(Ascii(name), 100);
            Unsummed(name, size, mtime)[0..100] == raw + Fill(0, 100 - |raw|)
  {
    var raw := Prefix(Ascii(name), 100);
    var h0 := Overlay(Fill(0, BLOCK), 0, raw);
    var h1 := Overlay(h0, 100, MODE);
    var h2 := Overlay(h1, 108, OWNER);
    var h3 := Overlay(h2, 116, OWNER);
    var h4 := Overlay(h3, 124, NumberField(size));
    var h5 := Overlay(h4, 136, NumberField(mtime / 1000));
    var h6 := Overlay(h5, 148, Fill(SPACE, 8));
    SurvivesConstants(h6, 0, 100);
    OverlayApart(h5, 148, Fill(SPACE, 8), 0, 100);
    OverlayApart(h4, 136, NumberField(mtime / 1000), 0, 100);
    OverlayApart(h3, 124, NumberField(size), 0, 100);
    OverlayApart(h2, 116, OWNER, 0, 100);
    OverlayApart(h1, 108, OWNER, 0, 100);
    OverlayApart(h0, 100, MODE, 0, 100);
    assert h0[0..100] == raw + Fill(0, 100 - |raw|);
  }

  /** The bytes that no field uses: the link name, the names of the owners, the devices, the prefix and the rest. */
  lemma UnsummedBlank(name: seq<CodeUnit>, size: nat, mtime: nat, lo: nat, hi: nat)
    requires lo <= hi <= BLOCK && ((157 <= lo && hi <= 257) || 265 <= lo)
    ensures Unsummed(name, size, mtime)[lo..hi] == Fill(0, hi - lo)
  {
    var blank := Fill(0, BLOCK);
    var h0 := Overlay(blank, 0, Prefix(Ascii(name), 100));
    var h1 := Overlay(h0, 100, MODE);
    var h2 := Overlay(h1, 108, OWNER);
    var h3 := Overlay(h2, 116, OWNER);
    var h4 := Overlay(h3, 124, NumberField(size));
    var h5 := Overlay(h4, 136, NumberField(mtime / 1000));
    var h6 := Overlay(h5, 148, Fill(SPACE, 8));
    SurvivesConstants(h6, lo, hi);
    OverlayApart(h5, 148, Fill(SPACE, 8), lo, hi);
    OverlayApart(h4, 136, NumberField(mtime / 1000), lo, hi);
    OverlayApart(h3, 124, NumberField(size), lo, hi);
    OverlayApart(h2, 116, OWNER, lo, hi);
    OverlayApart(h1, 108, OWNER, lo, hi);
    OverlayApart(h0, 100, MODE, lo, hi);
    OverlayApart(blank, 0, Prefix(Ascii(name), 100), lo, hi);
    assert blank[lo..hi] == Fill(0, hi - lo);
  }

  /** Mode, user and group, each closed by a NUL. */
  lemma UnsummedOwner(name: seq<CodeUnit>, size: nat, mtime: nat)
    ensures var h := Unsummed(name, size, mtime);
      h[100..108] == MODE + [0] && h[108..116] == OWNER + [0] && h[116..124] == OWNER + [0]
  {
    var h0 := Overlay(Fill(0, BLOCK), 0, Prefix(Ascii(name), 100));
    var h3 := Overlay(Overlay(Overlay(h0, 100, MODE), 108, OWNER), 116, OWNER);
    var h4 := Overlay(h3, 124, NumberField(size));
    var h5 := Overlay(h4, 136, NumberField(mtime / 1000));
    var h6 := Overlay(h5, 148, Fill(SPACE, 8));
    forall lo, hi | 100 <= lo <= hi <= 124 ensures Unsummed(name, size, mtime)[lo..hi] == h3[lo..hi] {
      SurvivesConstants(h6, lo, hi);
      OverlayApart(h5, 148, Fill(SPACE, 8), lo, hi);
      OverlayApart(h4, 136, NumberField(mtime / 1000), lo, hi);
      OverlayApart(h3, 124, NumberField(size), lo, hi);
    }
    OwnerFields(h0);
  }

  lemma FieldThenNul(buffer: seq<Byte>, offset: nat, val: seq<Byte>)
    requires offset + |val| < |buffer| && buffer[offset + |val|] == 0
    ensures Overlay(buffer, offset, val)[offset..offset + |val| + 1] == val + [0]
  {
    var after := Overlay(buffer, offset, val);
    assert after[offset + |val|] == buffer[offset + |val|];
    assert after[offset..offset + |val|] == val;
  }

  lemma OwnerFields(h0: seq<Byte>)
    requires |h0| == BLOCK && h0[107] == 0 && h0[115] == 0 && h0[123] == 0
    ensures var h3 := Overlay(Overlay(Overlay(h0, 100, MODE), 108, OWNER), 116, OWNER);
      h3[100..108] == MODE + [0] && h3[108..116] == OWNER + [0] && h3[116..124] == OWNER + [0]
  {
    var h1 := Overlay(h0, 100, MODE);
    var h2 := Overlay(h1, 108, OWNER);
    OverlayApart(h2, 116, OWNER, 100, 108);
    OverlayApart(h1, 108, OWNER, 100, 108);
    OverlayApart(h2, 116, OWNER, 108, 116);
    assert h1[115] == h0[115] && h2[123] == h1[123] == h0[123];
    FieldThenNul(h0, 100, MODE);
    FieldThenNul(h1, 108, OWNER);
    FieldThenNul(h2, 116, OWNER);
  }

  /** "0000644" is 420, and "0000000" is zero. */
  lemma OwnerFieldsRead()
    ensures Number(MODE + [0]) == Some(420) && Number(OWNER + [0]) == Some(0)
  {
    DigitsThenTerminators(MODE, [0]);
    DigitsThenTerminators(OWNER, [0]);
    assert (MODE + [0])[..7] == MODE && (OWNER + [0])[..7] == OWNER;
    assert MODE == Fill(ZERO_DIGIT, 4) + [0x36, 0x34, 0x34];
    LeadingZeros(4, [0x36, 0x34, 0x34]);
    ThreeDigits(0x36, 0x34, 0x34);
    assert OWNER == Fill(ZERO_DIGIT, 7) + [];
    LeadingZeros(7, []);
  }

  lemma ThreeDigits(a: Byte, b: Byte, c: Byte)
    requires IsDigit(a) && IsDigit(b) && IsDigit(c)
    ensures Value([a, b, c]) == 64 * (a - ZERO_DIGIT) + 8 * (b - ZERO_DIGIT) + (c - ZERO_DIGIT)
  {
    LastDigit([a, b], c);
    LastDigit([a], b);
    LastDigit([], a);
    assert [a, b] + [c] == [a, b, c] && [a] + [b] == [a, b] && [] + [a] == [a];
  }

  lemma UnsummedNumbers(name: seq<CodeUnit>, size: nat, mtime: nat)
    ensures var h := Unsummed(name, size, mtime);
            && h[124..136] == NumberField(size) && h[136..148] == NumberField(mtime / 1000)
            && h[148..156] == Fill(SPACE, 8)
  {
    var h0 := Overlay(Fill(0, BLOCK), 0, Prefix(Ascii(name), 100));
    var h3 := Overlay(Overlay(Overlay(h0, 100, MODE), 108, OWNER), 116, OWNER);
    var h4 := Overlay(h3, 124, NumberField(size));
    var h5 := Overlay(h4, 136, NumberField(mtime / 1000));
    var h6 := Overlay(h5, 148, Fill(SPACE, 8));
    SurvivesConstants(h6, 124, 136);
    OverlayApart(h5, 148, Fill(SPACE, 8), 124, 136);
    OverlayApart(h4, 136, NumberField(mtime / 1000), 124, 136);
    SurvivesConstants(h6, 136, 148);
    OverlayApart(h5, 148, Fill(SPACE, 8), 136, 148);
    SurvivesConstants(h6, 148, 156);
  }

  /** The constants the reader looks for, in any buffer the writer ends with. */
  lemma ConstantFields(buffer: seq<Byte>)
    requires |buffer| == BLOCK && buffer[262] == 0
    ensures var h := Overlay(Overlay(Overlay(buffer, 156, [REGULAR]), 257, MAGIC), 263, VERSION);
            h[156] == REGULAR && h[257..263] == MAGIC + [0] && h[263..265] == VERSION
  {
    var h7 := Overlay(buffer, 156, [REGULAR]);
    var h8 := Overlay(h7, 257, MAGIC);
    var h9 := Overlay(h8, 263, VERSION);
    assert h9[262] == h8[262] == h7[262] == 0;
    OverlayApart(h8, 263, VERSION, 257, 262);
    assert h9[257..263] == h9[257..262] + [h9[262]];
  }

  lemma UnsummedConstants(name: seq<CodeUnit>, size: nat, mtime: nat)
    ensures var h := Unsummed(name, size, mtime);
            h[156] == REGULAR && h[257..263] == MAGIC + [0] && h[263..265] == VERSION
  {
    var h0 := Overlay(Fill(0, BLOCK), 0, Prefix(Ascii(name), 100));
    var h3 := Overlay(Overlay(Overlay(h0, 100, MODE), 108, OWNER), 116, OWNER);
    var h5 := Overlay(Overlay(h3, 124, NumberField(size)), 136, NumberField(mtime / 1000));
    var h6 := Overlay(h5, 148, Fill(SPACE, 8));
    assert h6[262] == h5[262] == h3[262] == h0[262] == 0;
    ConstantFields(h6);
  }

  /** The time field holds whole seconds, if eleven octal digits suffice for them. */
  predicate HoldsSeconds(field: seq<Byte>, mtime: nat) {
    match Number(field)
    case Some(t) => t < Pow8(11) && 1000 * t <= mtime < 1000 * (t + 1)
    case None => mtime >= 1000 * Pow8(11)
  }

  lemma SecondsRead(mtime: nat)
    ensures HoldsSeconds(NumberField(mtime / 1000), mtime)
  {
    NumberFieldReads(mtime / 1000);
  }

  lemma HeaderNumbers(name: seq<CodeUnit>, size: nat, mtime: nat)
    ensures var h := Header(name, size, mtime);
            && Number(h[100..108]) == Some(420) && Number(h[108..116]) == Some(0) && Number(h[116..124]) == Some(0)
            && h[124..136] == NumberField(size)
            && h[136..148] == NumberField(mtime / 1000)
            && Number(h[148..156]) == Some(HeaderSum(h))
  {
    var u := Unsummed(name, size, mtime);
    var mid := Overlay(u, 148, ChecksumField(u));
    var h := Header(name, size, mtime);
    UnsummedOwner(name, size, mtime);
    UnsummedNumbers(name, size, mtime);
    HeaderKeeps(u, mid, h, 100, 108);
    HeaderKeeps(u, mid, h, 108, 116);
    HeaderKeeps(u, mid, h, 116, 124);
    HeaderKeeps(u, mid, h, 124, 136);
    HeaderKeeps(u, mid, h, 136, 148);
    OwnerFieldsRead();
    ChecksumReads(u, mid, h);
  }

  lemma HeaderBlank(name: seq<CodeUnit>, size: nat, mtime: nat, lo: nat, hi: nat)
    requires lo <= hi <= BLOCK && ((157 <= lo && hi <= 257) || 265 <= lo)
    ensures Header(name, size, mtime)[lo..hi] == Fill(0, hi - lo)
  {
    var u := Unsummed(name, size, mtime);
    UnsummedBlank(name, size, mtime, lo, hi);
    HeaderKeeps(u, Overlay(u, 148, ChecksumField(u)), Header(name, size, mtime), lo, hi);
  }

  /** The writer's constants are the reader's. */
  lemma ConstantsAgree()
    ensures MAGIC + [0] == USTAR && VERSION == FIRST_VERSION && REGULAR == REGULAR_FILE
  {
  }

  lemma HeaderConstants(name: seq<CodeUnit>, size: nat, mtime: nat)
    ensures var h := Header(name, size, mtime);
            var raw := Prefix(Ascii(name), 100);
            && h[0..100] == raw + Fill(0, 100 - |raw|)
            && h[156] == REGULAR_FILE && h[257..263] == USTAR && h[263..265] == FIRST_VERSION
  {
    var u := Unsummed(name, size, mtime);
    var mid := Overlay(u, 148, ChecksumField(u));
    var h := Header(name, size, mtime);
    UnsummedName(name, size, mtime);
    UnsummedConstants(name, size, mtime);
    HeaderKeeps(u, mid, h, 0, 100);
    HeaderKeeps(u, mid, h, 156, 157);
    HeaderKeeps(u, mid, h, 257, 263);
    HeaderKeeps(u, mid, h, 263, 265);
    ConstantsAgree();
    assert h[156] == h[156..157][0] && u[156] == u[156..157][0];
  }

  lemma HeaderZeros(name: seq<CodeUnit>, size: nat, mtime: nat)
    ensures var h := Header(name, size, mtime);
      && h[157..257] == Fill(0, 100) && h[265..345] == Fill(0, 80)
      && h[345..500] == Fill(0, 155) && h[500..512] == Fill(0, 12)
  {
    HeaderBlank(name, size, mtime, 157, 257);
    HeaderBlank(name, size, mtime, 265, 345);
    HeaderBlank(name, size, mtime, 345, 500);
    HeaderBlank(name, size, mtime, 500, 512);
  }

  /** What the reader sees in a written header, field by field. */
  lemma HeaderReads(name: seq<CodeUnit>, size: nat, mtime: nat)
    ensures var h := Header(name, size, mtime);
            var raw := Prefix(Ascii(name), 100);
            && h[0..100] == raw + Fill(0, 100 - |raw|)
            && Number(h[100..108]) == Some(420) && Number(h[108..116]) == Some(0) && Number(h[116..124]) == Some(0)
            && h[124..136] == NumberField(size)
            && h[136..148] == NumberField(mtime / 1000) && HoldsSeconds(h[136..148], mtime)
            && h[156] == REGULAR_FILE && h[157..257] == Fill(0, 100)
            && h[257..263] == USTAR && h[263..265] == FIRST_VERSION
            && h[265..345] == Fill(0, 80) && h[345..500] == Fill(0, 155) && h[500..512] == Fill(0, 12)
            && Number(h[148..156]) == Some(HeaderSum(h))
  {
    HeaderConstants(name, size, mtime);
    HeaderNumbers(name, size, mtime);
    SecondsRead(mtime);
    HeaderZeros(name, size, mtime);
  }

  lemma HeaderKeeps(u: seq<Byte>, mid: seq<Byte>, h: seq<Byte>, lo: nat, hi: nat)
    requires |u| == BLOCK && mid == Overlay(u, 148, ChecksumField(u)) && h == Overlay(mid, 155, [SPACE])
    requires lo <= hi <= BLOCK && (hi <= 148 || 156 <= lo)
    ensures h[lo..hi] == u[lo..hi]
  {
    OverlayApart(u, 148, ChecksumField(u), lo, hi);
    OverlayApart(mid, 155, [SPACE], lo, hi);
  }

  /** The checksum field holds six octal digits and two spaces, and verifies. */
  lemma ChecksumReads(u: seq<Byte>, mid: seq<Byte>, h: seq<Byte>)
    requires |u| == BLOCK && u[148..156] == Fill(SPACE, 8)
    requires mid == Overlay(u, 148, ChecksumField(u)) && h == Overlay(mid, 155, [SPACE])
    ensures h[148..156] == ChecksumField(u) + [SPACE, SPACE]
    ensures HeaderSum(h) == Sum(u)
    ensures Number(h[148..156]) == Some(HeaderSum(h))
  {
    var digits := ChecksumField(u);
    assert h[148..156] == digits + [SPACE, SPACE] by {
      OverlayApart(mid, 155, [SPACE], 148, 154);
      assert h[154] == mid[154] == u[154] == u[148..156][6];
      assert h[148..156] == h[148..154] + [h[154], h[155]];
    }
    assert Overlay(h, 148, Fill(SPACE, 8)) == u by {
      HeaderKeeps(u, mid, h, 0, 148);
      HeaderKeeps(u, mid, h, 156, BLOCK);
      assert u == u[0..148] + u[148..156] + u[156..BLOCK];
      assert h[0..148] == h[..148] && h[156..] == h[156..BLOCK];
    }
    PaddedValue(Sum(u), 6);
    DigitsThenTerminators(digits, [SPACE, SPACE]);
    assert (digits + [SPACE, SPACE])[..6] == digits;
  }

  // ---------- round trip ----------

  /** The name as the archive stores it: low bytes, at most 100, up to the first NUL. */
  function StoredName(name: seq<CodeUnit>): seq<Byte> {
    UntilNul(Prefix(Ascii(name), 100))
  }

  /** The modification time that comes back: whole seconds below 8^11. */
  function Seconds(mtime: nat): (t: Option<nat>)
    ensures forall n: nat :: t == Some(n) <==> n < Pow8(11) && 1000 * n <= mtime < 1000 * n + 1000
  {
    if mtime / 1000 < Pow8(11) then Some(mtime / 1000) else None
  }

  function MemberOf(file: File, mtime: nat): Member {
    Member(StoredName(file.name), Some(420), Seconds(mtime), file.content)
  }

  function Members(files: seq<File>, mtime: nat): (members: seq<Member>)
    ensures |members| == |files|
  {
    seq(|files|, i requires 0 <= i < |files| => MemberOf(files[i], mtime))
  }

  predicate Fits(file: File) {
    |file.content| < Pow8(11)
  }

  lemma {:induction false} NulPadding(raw: seq<Byte>, n: nat)
    ensures UntilNul(raw + Fill(0, n)) == UntilNul(raw)
    decreases |raw|
  {
    if raw == [] {
      assert raw + Fill(0, n) == Fill(0, n);
    } else {
      assert (raw + Fill(0, n))[1..] == raw[1..] + Fill(0, n);
      NulPadding(raw[1..], n);
    }
  }

  /** A written header is accepted exactly when the size fits its field, and yields name, mode, time and size. */
  lemma HeaderRoundTrip(file: File, mtime: nat)
    ensures var h := Header(file.name, |file.content|, mtime);
            && !AllZero(h)
            && ReadMember(h, file.content) == MemberOf(file, mtime)
            && (ValidHeader(h) <==> Fits(file))
            && (Fits(file) ==> Number(h[124..136]) == Some(|file.content|))
  {
    HeaderReads(file.name, |file.content|, mtime);
    NumberFieldReads(mtime / 1000);
    Accepts(Header(file.name, |file.content|, mtime), file);
  }

  lemma Accepts(h: seq<Byte>, file: File)
    requires |h| == BLOCK
    requires var raw := Prefix(Ascii(file.name), 100); h[0..100] == raw + Fill(0, 100 - |raw|)
    requires h[124..136] == NumberField(|file.content|)
    requires h[156] == REGULAR_FILE && h[257..263] == USTAR && h[263..265] == FIRST_VERSION
    requires h[345..500] == Fill(0, 155)
    requires Number(h[148..156]) == Some(HeaderSum(h))
    ensures !AllZero(h) && MemberName(h) == StoredName(file.name)
    ensures ValidHeader(h) <==> Fits(file)
    ensures Fits(file) ==> Number(h[124..136]) == Some(|file.content|)
  {
    NumberFieldReads(|file.content|);
    NameFieldReads(h, file);
    assert h[156] in h;
  }

  lemma NameFieldReads(h: seq<Byte>, file: File)
    requires |h| == BLOCK
    requires var raw := Prefix(Ascii(file.name), 100); h[0..100] == raw + Fill(0, 100 - |raw|)
    requires h[345..500] == Fill(0, 155)
    ensures MemberName(h) == StoredName(file.name)
  {
    var raw := Prefix(Ascii(file.name), 100);
    NulPadding(raw, 100 - |raw|);
  }

  /** Reading one entry leaves the rest of the archive. */
  lemma EntryRoundTrip(file: File, mtime: nat, rest: seq<Byte>)
    ensures ReadTar(Entry(file, mtime) + rest) ==
      if !Fits(file) then None
      else
        match ReadTar(rest)
        case None => None
        case Some(members) => Some([MemberOf(file, mtime)] + members)
  {
    HeaderRoundTrip(file, mtime);
    ReadHeader(Header(file.name, |file.content|, mtime), file.content, rest);
  }

  lemma ReadHeader(h: seq<Byte>, content: seq<Byte>, rest: seq<Byte>)
    requires |h| == BLOCK && !AllZero(h)
    requires ValidHeader(h) ==> Number(h[124..136]) == Some(|content|)
    ensures ReadTar(h + PadToBlock(content) + rest) ==
      if !ValidHeader(h) then None
      else
        match ReadTar(rest)
        case None => None
        case Some(members) => Some([ReadMember(h, content)] + members)
  {
    var bytes := h + PadToBlock(content) + rest;
    var end := BLOCK + |content| + Padding(|content|);
    assert bytes[..BLOCK] == h;
    assert bytes[end..] == rest;
    assert bytes[BLOCK..BLOCK + |content|] == content;
  }

  /**
   Reading an archive gives back every file in order, with its mode, its time and its content whatever
   blocks it holds, exactly when every size fits eleven octal digits; otherwise it is rejected.
   */
  lemma {:induction false} RoundTrip(files: seq<File>, mtime: nat)
    ensures ReadTar(Archive(files, mtime)) == if forall f <- files :: Fits(f) then Some(Members(files, mtime)) else None
    decreases |files|
  {
    if files == [] {
      assert Members(files, mtime) == [];
    } else {
      ArchiveCons(files, mtime);
      RoundTrip(files[1..], mtime);
      MembersCons(files, mtime);
    }
  }

  lemma ArchiveCons(files: seq<File>, mtime: nat)
    requires files != []
    ensures ReadTar(Archive(files, mtime)) ==
      if !Fits(files[0]) then None
      else
        match ReadTar(Archive(files[1..], mtime))
        case None => None
        case Some(members) => Some([MemberOf(files[0], mtime)] + members)
  {
    EntryRoundTrip(files[0], mtime, Archive(files[1..], mtime));
  }

  lemma MembersCons(files: seq<File>, mtime: nat)
    requires files != []
    ensures Members(files, mtime) == [MemberOf(files[0], mtime)] + Members(files[1..], mtime)
    ensures (forall f <- files :: Fits(f)) <==> Fits(files[0]) && forall f <- files[1..] :: Fits(f)
  {
    assert forall f :: f in files <==> f == files[0] || f in files[1..];
  }

  /** A name comes back as it was exactly when it has at most 100 code units, none zero or above one byte. */
  lemma NameRoundTrip(name: seq<CodeUnit>)
    ensures StoredName(name) == name <==> |name| <= 100 && forall c <- name :: 0 < c < 256
  {
    var raw := Prefix(Ascii(name), 100);
    if |name| <= 100 && forall c <- name :: 0 < c < 256 {
      forall i | 0 <= i < |name|
        ensures raw[i] == name[i] && raw[i] != 0
      {
        assert name[i] in name;
      }
      NoNul(raw);
    }
    if StoredName(name) == name {
      StoredBytes(raw);
      assert |name| == |UntilNul(raw)| <= |raw| <= 100;
      forall i | 0 <= i < |name|
        ensures 0 < name[i] < 256
      {
        assert UntilNul(raw)[i] == name[i];
        assert UntilNul(raw)[i] in UntilNul(raw);
      }
    }
  }

  lemma {:induction false} NoNul(bytes: seq<Byte>)
    requires forall i :: 0 <= i < |bytes| ==> bytes[i] != 0
    ensures UntilNul(bytes) == bytes
    decreases |bytes|
  {
    if bytes != [] {
      NoNul(bytes[1..]);
    }
  }

  lemma {:induction false} StoredBytes(bytes: seq<Byte>)
    ensures |UntilNul(bytes)| <= |bytes| && forall b <- UntilNul(bytes) :: 0 < b < 256
    decreases |bytes|
  {
    if bytes != [] && bytes[0] != 0 {
      StoredBytes(bytes[1..]);
    }
  }

  /** The length of every archive is a whole number of blocks, at least the two of the end marker. */
  lemma {:induction false} ArchiveLength(files: seq<File>, mtime: nat)
    ensures |Archive(files, mtime)| % BLOCK == 0 && |Archive(files, mtime)| >= 2 * BLOCK
    decreases |files|
  {
    if files != [] {
      ArchiveLength(files[1..], mtime);
      EntryLength(files[0], mtime, Archive(files[1..], mtime));
    }
  }

  lemma EntryLength(file: File, mtime: nat, rest: seq<Byte>)
    requires |rest| % BLOCK == 0
    ensures |Entry(file, mtime) + rest| % BLOCK == 0 && |Entry(file, mtime) + rest| >= |rest|
  {
  }

}
