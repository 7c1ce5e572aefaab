/**
 * The text form `updateIletisimVeriler` gives the MAC address: the three registers'
 * six bytes, high byte first, as two upper-case hex digits each, joined by colons
 * (`"%02X:%02X:%02X:%02X:%02X:%02X"`).
 */
module MacFormat {
  import opened Words

  /** The characters `%X` writes: decimal digits and the upper-case letters A to F. */
  predicate IsHexDigit(ch: char) {
    '0' <= ch <= '9' || 'A' <= ch <= 'F'
  }

  /** One upper-case hex digit. */
  function HexDigit(n: nat): (ch: char)
    requires n < 16
    ensures IsHexDigit(ch)
  {
    if n < 10 then ('0' as int + n) as char else ('A' as int + n - 10) as char
  }

  /** The value of a hex digit as `HexDigit` writes it. */
  function HexValue(ch: char): (n: nat)
    ensures n < 16
  {
    if '0' <= ch <= '9' then (ch - '0') as nat
    else if 'A' <= ch <= 'F' then (ch - 'A') as nat + 10
    else 0
  }

  /** Reading a written digit gives its value back. */
  lemma HexDigitValue(n: nat)
    requires n < 16
    ensures HexValue(HexDigit(n)) == n
  {
  }

  /** `%02X` of a byte. */
  function Hex2(b: nat): (s: string)
    requires b < 256
    ensures |s| == 2
  {
    [HexDigit(b / 16), HexDigit(b % 16)]
  }

  /** `(w >> 8) & 0xFF` and `w & 0xFF` of a register word, as text. */
  function WordBytes(w: uint16): (s: string)
    ensures |s| == 5
  {
    Hex2(w / 256) + ":" + Hex2(w % 256)
  }

  /** The MAC address text of the three registers read from 11684. */
  function MacString(regs: seq<uint16>): (s: string)
    requires |regs| == 3
    ensures |s| == 17
  {
    WordBytes(regs[0]) + ":" + WordBytes(regs[1]) + ":" + WordBytes(regs[2])
  }

  /** The register word behind five characters `HH:LL`. */
  function ParseWord(s: string): uint16
    requires |s| == 5
  {
    (HexValue(s[0]) * 16 + HexValue(s[1])) * 256 + HexValue(s[3]) * 16 + HexValue(s[4])
  }

  /** The three register words behind a 17-character MAC address text. */
  function ParseMac(s: string): seq<uint16>
    requires |s| == 17
  {
    [ParseWord(s[0..5]), ParseWord(s[6..11]), ParseWord(s[12..17])]
  }

  /** A word's text has a colon in the middle and hex digits around it. */
  lemma WordBytesShape(w: uint16)
    ensures var s := WordBytes(w);
            s[2] == ':' && IsHexDigit(s[0]) && IsHexDigit(s[1]) && IsHexDigit(s[3]) && IsHexDigit(s[4])
  {
    var hi, lo := Hex2(w / 256), Hex2(w % 256);
    assert WordBytes(w) == hi + ":" + lo;
  }

  /** A word's text reads back as the word. */
  lemma WordBytesRoundTrip(w: uint16)
    ensures ParseWord(WordBytes(w)) == w
  {
    var s := WordBytes(w);
    HexDigitValue(w / 256 / 16);
    HexDigitValue(w / 256 % 16);
    HexDigitValue(w % 256 / 16);
    HexDigitValue(w % 256 % 16);
    assert s[0] == HexDigit(w / 256 / 16) && s[1] == HexDigit(w / 256 % 16);
    assert s[3] == HexDigit(w % 256 / 16) && s[4] == HexDigit(w % 256 % 16);
  }

  /**
   * The text is the colon-separated hex form: byte `k` is written at positions
   * `3k` and `3k + 1`, and a colon follows every byte but the last.
   */
  lemma MacStringShape(regs: seq<uint16>)
    requires |regs| == 3
    ensures var s := MacString(regs);
            (forall k :: 0 <= k < 5 ==> s[3 * k + 2] == ':') &&
            (forall k :: 0 <= k < 6 ==> IsHexDigit(s[3 * k]) && IsHexDigit(s[3 * k + 1]))
  {
    var s := MacString(regs);
    var a, b, c := WordBytes(regs[0]), WordBytes(regs[1]), WordBytes(regs[2]);
    assert s == a + ":" + b + ":" + c;
    WordBytesShape(regs[0]);
    WordBytesShape(regs[1]);
    WordBytesShape(regs[2]);
    assert s[0] == a[0] && s[1] == a[1] && s[2] == a[2] && s[3] == a[3] && s[4] == a[4] && s[5] == ':';
    assert s[6] == b[0] && s[7] == b[1] && s[8] == b[2] && s[9] == b[3] && s[10] == b[4] && s[11] == ':';
    assert s[12] == c[0] && s[13] == c[1] && s[14] == c[2] && s[15] == c[3] && s[16] == c[4];
  }

  /** The three words are recovered from the text. */
  lemma MacStringRoundTrip(regs: seq<uint16>)
    requires |regs| == 3
    ensures ParseMac(MacString(regs)) == regs
  {
    var s := MacString(regs);
    var a, b, c := WordBytes(regs[0]), WordBytes(regs[1]), WordBytes(regs[2]);
    assert s == a + ":" + b + ":" + c;
    assert s[0..5] == a && s[6..11] == b && s[12..17] == c;
    WordBytesRoundTrip(regs[0]);
    WordBytesRoundTrip(regs[1]);
    WordBytesRoundTrip(regs[2]);
  }

  /** Different register contents give different texts. */
  lemma MacStringInjective(r1: seq<uint16>, r2: seq<uint16>)
    requires |r1| == 3 && |r2| == 3 && MacString(r1) == MacString(r2)
    ensures r1 == r2
  {
    MacStringRoundTrip(r1);
    MacStringRoundTrip(r2);
  }

  /** A worked value: registers 0x0012, 0x3456, 0xABCD read as "00:12:34:56:AB:CD". */
  lemma MacStringExample()
    ensures MacString([0x0012, 0x3456, 0xABCD]) == "00:12:34:56:AB:CD"
  {
    assert Hex2(0x00) == ['0', '0'] && Hex2(0x12) == ['1', '2'];
    assert Hex2(0x34) == ['3', '4'] && Hex2(0x56) == ['5', '6'];
    assert Hex2(0xAB) == ['A', 'B'] && Hex2(0xCD) == ['C', 'D'];
    var a, b, c := WordBytes(0x0012), WordBytes(0x3456), WordBytes(0xABCD);
    assert a == "00:12" && b == "34:56" && c == "AB:CD";
    assert MacString([0x0012, 0x3456, 0xABCD]) == a + ":" + b + ":" + c;
  }
}
