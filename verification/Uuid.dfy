/** Identifiers of rows and libvirt domains: 128-bit UUIDs and their text form
    (section 4 of RFC 9562: 32 lower-case hexadecimal digits in groups of
    8, 4, 4, 4 and 12). */
module Uuids {
  import opened Wrappers
  import opened Ipv4

  type Uuid = u: nat | u < 0x1_0000_0000_0000_0000_0000_0000_0000_0000

  /** The `len` low-order bytes of a number, most significant first. */
  function Bytes(u: nat, len: nat): (bs: seq<byte>)
    ensures |bs| == len
  {
    if len == 0 then [] else Bytes(u / 256, len - 1) + [u % 256]
  }

  function Number(bs: seq<byte>): nat {
    if bs == [] then 0 else 256 * Number(bs[..|bs| - 1]) + bs[|bs| - 1]
  }

  function Pow256(n: nat): nat {
    if n == 0 then 1 else 256 * Pow256(n - 1)
  }

  lemma {:induction false} NumberOfBytes(u: nat, len: nat)
    requires u < Pow256(len)
    ensures Number(Bytes(u, len)) == u
  {
    if len > 0 {
      NumberOfBytes(u / 256, len - 1);
      assert Bytes(u, len)[..len - 1] == Bytes(u / 256, len - 1);
    }
  }

  lemma {:induction false} BytesOfNumber(bs: seq<byte>)
    ensures Number(bs) < Pow256(|bs|) && Bytes(Number(bs), |bs|) == bs
  {
    if bs != [] {
      BytesOfNumber(bs[..|bs| - 1]);
    }
  }

  predicate IsHexDigit(c: char) {
    '0' <= c <= '9' || 'a' <= c <= 'f'
  }

  function Digit(n: nat): (c: char)
    requires n < 16
    ensures IsHexDigit(c)
  {
    "0123456789abcdef"[n]
  }

  function DigitValue(c: char): (n: nat)
    requires IsHexDigit(c)
    ensures n < 16
  {
    if c <= '9' then c as int - '0' as int else c as int - 'a' as int + 10
  }

  lemma DigitsInverse()
    ensures forall n: nat | n < 16 :: DigitValue(Digit(n)) == n
    ensures forall c | IsHexDigit(c) :: Digit(DigitValue(c)) == c
  {
  }

  /** The %x verb on a byte slice: two digits for each byte. */
  function Hex(bs: seq<byte>): (s: string)
    ensures |s| == 2 * |bs|
  {
    if bs == [] then "" else [Digit(bs[0] / 16), Digit(bs[0] % 16)] + Hex(bs[1..])
  }

  function Unhex(s: string): (bs: seq<byte>)
    requires |s| % 2 == 0 && forall i | 0 <= i < |s| :: IsHexDigit(s[i])
    ensures 2 * |bs| == |s|
  {
    if s == "" then [] else [16 * DigitValue(s[0]) + DigitValue(s[1])] + Unhex(s[2..])
  }

  lemma {:induction false} UnhexHex(bs: seq<byte>)
    ensures forall i | 0 <= i < |Hex(bs)| :: IsHexDigit(Hex(bs)[i])
    ensures Unhex(Hex(bs)) == bs
  {
    if bs != [] {
      UnhexHex(bs[1..]);
      DigitsInverse();
      assert Hex(bs)[2..] == Hex(bs[1..]);
    }
  }

  lemma {:induction false} HexUnhex(s: string)
    requires |s| % 2 == 0 && forall i | 0 <= i < |s| :: IsHexDigit(s[i])
    ensures Hex(Unhex(s)) == s
  {
    if s != "" {
      HexUnhex(s[2..]);
      DigitsInverse();
      var bs := Unhex(s);
      assert bs[1..] == Unhex(s[2..]);
      assert bs[0] / 16 == DigitValue(s[0]) && bs[0] % 16 == DigitValue(s[1]);
    }
  }

  lemma {:induction false} HexConcat(xs: seq<byte>, ys: seq<byte>)
    ensures Hex(xs + ys) == Hex(xs) + Hex(ys)
  {
    if xs == [] {
      assert xs + ys == ys;
    } else {
      assert (xs + ys)[1..] == xs[1..] + ys;
      HexConcat(xs[1..], ys);
    }
  }

  /** Five groups of digits joined by hyphens, and the reverse. */
  function Hyphenate(digits: string): (s: string)
    requires |digits| == 32
    ensures |s| == 36
  {
    digits[..8] + "-" + digits[8..12] + "-" + digits[12..16] + "-" + digits[16..20] + "-" + digits[20..]
  }

  function Digits(text: string): (digits: string)
    requires |text| == 36
    ensures |digits| == 32
  {
    text[..8] + text[9..13] + text[14..18] + text[19..23] + text[24..]
  }

  /** The canonical text form of a UUID. */
  predicate Canonical(text: string) {
    && |text| == 36
    && text[8] == '-' && text[13] == '-' && text[18] == '-' && text[23] == '-'
    && forall i | 0 <= i < 32 :: IsHexDigit(Digits(text)[i])
  }

  /** How ListVMInfos prints the 16 bytes of a libvirt domain's UUID: five
      slices, each with the hexadecimal verb. */
  function Print(bs: seq<byte>): (s: string)
    requires |bs| == 16
    ensures |s| == 36
  {
    Hex(bs[0..4]) + "-" + Hex(bs[4..6]) + "-" + Hex(bs[6..8]) + "-" + Hex(bs[8..10]) + "-" + Hex(bs[10..16])
  }

  /** Reading the canonical form, as the database and libvirt do. */
  function Parse(text: string): Option<Uuid> {
    if !Canonical(text) then None
    else
      var bs := Unhex(Digits(text));
      BytesOfNumber(bs);
      Pow256Of16();
      Some(Number(bs))
  }

  /** The text of an identifier, as the controller puts it in payloads. */
  function Text(u: Uuid): (s: string)
    ensures |s| == 36
  {
    Print(Bytes(u, 16))
  }

  lemma Pow256Of16()
    ensures Pow256(16) == 0x1_0000_0000_0000_0000_0000_0000_0000_0000
  {
    assert Pow256(4) == 0x1_0000_0000;
    assert Pow256(8) == 0x1_0000_0000_0000_0000;
    assert Pow256(12) == 0x1_0000_0000_0000_0000_0000_0000;
  }

  lemma HyphenateGroups(a: string, b: string, c: string, d: string, e: string)
    requires |a| == 8 && |b| == |c| == |d| == 4 && |e| == 12
    ensures Hyphenate(a + b + c + d + e) == a + "-" + b + "-" + c + "-" + d + "-" + e
    ensures Digits(a + "-" + b + "-" + c + "-" + d + "-" + e) == a + b + c + d + e
  {
    var digits := a + b + c + d + e;
    assert digits[..8] == a && digits[8..12] == b && digits[12..16] == c && digits[16..20] == d && digits[20..] == e;
    var text := a + "-" + b + "-" + c + "-" + d + "-" + e;
    assert text[..8] == a && text[9..13] == b && text[14..18] == c && text[19..23] == d && text[24..] == e;
  }

  lemma HexSplit(bs: seq<byte>, i: nat, j: nat)
    requires i <= j <= |bs|
    ensures Hex(bs[i..]) == Hex(bs[i..j]) + Hex(bs[j..])
  {
    assert bs[i..] == bs[i..j] + bs[j..];
    HexConcat(bs[i..j], bs[j..]);
  }

  lemma HexGroups(bs: seq<byte>)
    requires |bs| == 16
    ensures Hex(bs) == Hex(bs[0..4]) + Hex(bs[4..6]) + Hex(bs[6..8]) + Hex(bs[8..10]) + Hex(bs[10..16])
  {
    assert bs[0..] == bs && bs[10..] == bs[10..16];
    HexSplit(bs, 0, 4);
    HexSplit(bs, 4, 6);
    HexSplit(bs, 6, 8);
    HexSplit(bs, 8, 10);
    Regroup(Hex(bs[0..4]), Hex(bs[4..6]), Hex(bs[6..8]), Hex(bs[8..10]), Hex(bs[10..16]));
  }

  lemma Regroup(a: string, b: string, c: string, d: string, e: string)
    ensures a + (b + (c + (d + e))) == a + b + c + d + e
  {
  }

  lemma PrintIsHyphenated(bs: seq<byte>)
    requires |bs| == 16
    ensures Print(bs) == Hyphenate(Hex(bs))
    ensures Digits(Print(bs)) == Hex(bs)
  {
    HexGroups(bs);
    HyphenateGroups(Hex(bs[0..4]), Hex(bs[4..6]), Hex(bs[6..8]), Hex(bs[8..10]), Hex(bs[10..16]));
  }

  /** Printing is canonical, and parsing undoes it. */
  lemma ParsePrint(u: Uuid)
    ensures Canonical(Text(u)) && Parse(Text(u)) == Some(u)
  {
    var bs := Bytes(u, 16);
    PrintIsHyphenated(bs);
    UnhexHex(bs);
    Pow256Of16();
    NumberOfBytes(u, 16);
  }

  /** Printing undoes parsing: the text libvirt was given in the domain XML is the
      text that ListVMInfos prints back. */
  lemma PrintParse(text: string)
    requires Canonical(text)
    ensures Parse(text).Some? && Text(Parse(text).value) == text
  {
    var digits := Digits(text);
    var bs := Unhex(digits);
    BytesOfNumber(bs);
    HexUnhex(digits);
    PrintIsHyphenated(bs);
    assert Hyphenate(digits) == text by {
      assert text == text[..8] + [text[8]] + text[9..13] + [text[13]] + text[14..18] + [text[18]]
                     + text[19..23] + [text[23]] + text[24..];
      assert digits[..8] == text[..8] && digits[8..12] == text[9..13] && digits[12..16] == text[14..18];
      assert digits[16..20] == text[19..23] && digits[20..] == text[24..];
    }
  }

  /** Distinct identifiers have distinct texts. */
  lemma TextInjective(u: Uuid, v: Uuid)
    requires Text(u) == Text(v)
    ensures u == v
  {
    ParsePrint(u);
    ParsePrint(v);
  }
}
