/** Decimal integers, hexadecimal (RFC 4648, section 8), unpadded base64 (sections 3.2 and 4) and splitting. */
module Encodings {
  import opened Options

  type Byte = b: int | 0 <= b < 256

  const MAX_INT64: int := 0x7FFF_FFFF_FFFF_FFFF
  const MIN_INT64: int := -0x8000_0000_0000_0000

  // ----- Decimal -----

  function DigitChar(d: int): char
    requires 0 <= d < 10
  {
    '0' + d as char
  }

  predicate IsDigit(c: char) {
    '0' <= c <= '9'
  }

  predicate AllDigits(s: string) {
    s != "" && forall i :: 0 <= i < |s| ==> IsDigit(s[i])
  }

  function PrintNat(n: nat): (s: string)
    ensures AllDigits(s)
  {
    if n < 10 then [DigitChar(n)] else PrintNat(n / 10) + [DigitChar(n % 10)]
  }

  function PrintInt(n: int): string {
    if n < 0 then "-" + PrintNat(-n) else PrintNat(n)
  }

  function DigitValue(c: char): nat
    requires IsDigit(c)
  {
    c as int - '0' as int
  }

  function DigitsValue(s: string): nat
    requires forall i :: 0 <= i < |s| ==> IsDigit(s[i])
  {
    if s == "" then 0 else 10 * DigitsValue(s[..|s| - 1]) + DigitValue(s[|s| - 1])
  }

  /** An optional sign and at least one digit, within 64 bits. */
  function ParseInt64(s: string): Option<int> {
    var negative := s != "" && s[0] == '-';
    var digits := if s != "" && (s[0] == '-' || s[0] == '+') then s[1..] else s;
    if !AllDigits(digits) then None
    else
      var n: int := if negative then 0 - DigitsValue(digits) else DigitsValue(digits);
      if MIN_INT64 <= n <= MAX_INT64 then Some(n) else None
  }

  lemma {:induction false} PrintNatValue(n: nat)
    ensures DigitsValue(PrintNat(n)) == n
  {
    if n < 10 {
      assert PrintNat(n)[..0] == "";
    } else {
      PrintNatValue(n / 10);
      assert PrintNat(n)[..|PrintNat(n)| - 1] == PrintNat(n / 10);
    }
  }

  /** Every 64-bit integer is read back as printed. */
  lemma ParsePrint(n: int)
    requires MIN_INT64 <= n <= MAX_INT64
    ensures ParseInt64(PrintInt(n)) == Some(n)
  {
    if n < 0 {
      PrintNatValue(-n);
      assert PrintInt(n)[1..] == PrintNat(-n);
    } else {
      PrintNatValue(n);
      assert IsDigit(PrintNat(n)[0]);
    }
  }

  // ----- Hexadecimal -----

  function HexChar(v: int): char
    requires 0 <= v < 16
  {
    if v < 10 then '0' + v as char else 'a' + (v - 10) as char
  }

  function HexValue(c: char): Option<int> {
    if '0' <= c <= '9' then Some(c as int - '0' as int)
    else if 'a' <= c <= 'f' then Some(c as int - 'a' as int + 10)
    else if 'A' <= c <= 'F' then Some(c as int - 'A' as int + 10)
    else None
  }

  function EncodeHex(b: seq<Byte>): string {
    if b == [] then "" else [HexChar(b[0] / 16), HexChar(b[0] % 16)] + EncodeHex(b[1..])
  }

  function DecodeHex(s: string): Option<seq<Byte>> {
    if s == "" then Some([])
    else if |s| == 1 then None
    else
      var high, low, rest := HexValue(s[0]), HexValue(s[1]), DecodeHex(s[2..]);
      if high.None? || low.None? || rest.None? then None
      else Some([NibblePair(high.value, low.value)] + rest.value)
  }

  function NibblePair(high: int, low: int): Byte {
    if 0 <= high < 16 && 0 <= low < 16 then 16 * high + low else 0
  }

  lemma HexCharValue(v: int)
    requires 0 <= v < 16
    ensures HexValue(HexChar(v)) == Some(v)
  {
  }

  lemma {:induction false} DecodeEncodeHex(b: seq<Byte>)
    ensures DecodeHex(EncodeHex(b)) == Some(b)
  {
    if b != [] {
      HexCharValue(b[0] / 16);
      HexCharValue(b[0] % 16);
      assert EncodeHex(b)[2..] == EncodeHex(b[1..]);
      DecodeEncodeHex(b[1..]);
      assert NibblePair(b[0] / 16, b[0] % 16) == b[0];
      assert [b[0]] + b[1..] == b;
    }
  }

  function LowerChar(c: char): char {
    if 'A' <= c <= 'Z' then c - 'A' + 'a' else c
  }

  /** ASCII letters in lower case. */
  function Lower(s: string): string {
    seq(|s|, i requires 0 <= i < |s| => LowerChar(s[i]))
  }

  lemma HexCharIff(c: char, v: int)
    requires 0 <= v < 16
    ensures HexValue(c) == Some(v) <==> LowerChar(c) == HexChar(v)
  {
  }

  lemma {:induction false} EncodeHexLength(b: seq<Byte>)
    ensures |EncodeHex(b)| == 2 * |b|
  {
    if b != [] {
      EncodeHexLength(b[1..]);
    }
  }

  /** A string decodes to some bytes exactly when in lower case it is what those bytes encode to. */
  lemma {:induction false} DecodeHexIff(s: string, b: seq<Byte>)
    ensures DecodeHex(s) == Some(b) <==> Lower(s) == EncodeHex(b)
    decreases |s|
  {
    EncodeHexLength(b);
    assert |Lower(s)| == |s|;
    if |s| >= 2 && b != [] {
      DecodeHexIff(s[2..], b[1..]);
      HexPairIff(s, b[0]);
      assert Lower(s) == Lower(s)[..2] + Lower(s[2..]);
      assert EncodeHex(b) == [HexChar(b[0] / 16), HexChar(b[0] % 16)] + EncodeHex(b[1..]);
      assert EncodeHex(b)[..2] == [HexChar(b[0] / 16), HexChar(b[0] % 16)] && EncodeHex(b)[2..] == EncodeHex(b[1..]);
      assert Lower(s) == EncodeHex(b) <==> Lower(s)[..2] == EncodeHex(b)[..2] && Lower(s[2..]) == EncodeHex(b[1..]);
      assert b == [b[0]] + b[1..];
    }
  }

  lemma HexPairIff(s: string, byte: Byte)
    requires |s| >= 2
    ensures HexValue(s[0]).Some? && HexValue(s[1]).Some?
            && NibblePair(HexValue(s[0]).value, HexValue(s[1]).value) == byte
            <==> Lower(s)[..2] == [HexChar(byte / 16), HexChar(byte % 16)]
  {
    HexCharIff(s[0], byte / 16);
    HexCharIff(s[1], byte % 16);
    assert Lower(s)[..2] == [LowerChar(s[0]), LowerChar(s[1])];
  }

  // ----- Base64, standard alphabet, no padding -----

  function Base64Char(v: int): char
    requires 0 <= v < 64
  {
    if v < 26 then 'A' + v as char
    else if v < 52 then 'a' + (v - 26) as char
    else if v < 62 then '0' + (v - 52) as char
    else if v == 62 then '+' else '/'
  }

  function Base64Value(c: char): Option<int> {
    if 'A' <= c <= 'Z' then Some(c as int - 'A' as int)
    else if 'a' <= c <= 'z' then Some(c as int - 'a' as int + 26)
    else if '0' <= c <= '9' then Some(c as int - '0' as int + 52)
    else if c == '+' then Some(62)
    else if c == '/' then Some(63)
    else None
  }

  lemma Base64CharValue(v: int)
    requires 0 <= v < 64
    ensures Base64Value(Base64Char(v)) == Some(v)
  {
  }

  function EncodeBase64(b: seq<Byte>): string {
    if b == [] then ""
    else if |b| == 1 then [Base64Char(b[0] / 4), Base64Char(b[0] % 4 * 16)]
    else if |b| == 2 then
      [Base64Char(b[0] / 4), Base64Char(b[0] % 4 * 16 + b[1] / 16), Base64Char(b[1] % 16 * 4)]
    else
      [Base64Char(b[0] / 4), Base64Char(b[0] % 4 * 16 + b[1] / 16),
       Base64Char(b[1] % 16 * 4 + b[2] / 64), Base64Char(b[2] % 64)] + EncodeBase64(b[3..])
  }

  /** Line breaks are skipped wherever they stand. */
  function StripBreaks(s: string): string {
    if s == "" then ""
    else if s[0] == '\r' || s[0] == '\n' then StripBreaks(s[1..])
    else [s[0]] + StripBreaks(s[1..])
  }

  /** The sextet values, if every character is in the alphabet. */
  function Sextets(s: string): Option<seq<int>> {
    if s == "" then Some([])
    else
      var v, rest := Base64Value(s[0]), Sextets(s[1..]);
      if v.None? || rest.None? then None else Some([v.value] + rest.value)
  }

  function ToByte(v: int): Byte {
    if 0 <= v < 256 then v else 0
  }

  /** Four sextets make three bytes; two or three left over make one or two, and one is an error. */
  function Pack(v: seq<int>): Option<seq<Byte>> {
    if v == [] then Some([])
    else if |v| == 1 then None
    else if |v| == 2 then Some([ToByte(v[0] * 4 + v[1] / 16)])
    else if |v| == 3 then Some([ToByte(v[0] * 4 + v[1] / 16), ToByte(v[1] % 16 * 16 + v[2] / 4)])
    else
      var rest := Pack(v[4..]);
      if rest.None? then None
      else Some([ToByte(v[0] * 4 + v[1] / 16), ToByte(v[1] % 16 * 16 + v[2] / 4), ToByte(v[2] % 4 * 64 + v[3])]
                + rest.value)
  }

  function DecodeBase64(s: string): Option<seq<Byte>> {
    var v := Sextets(StripBreaks(s));
    if v.None? then None else Pack(v.value)
  }

  /** The sextets an encoder writes. */
  function Unpack(b: seq<Byte>): seq<int> {
    if b == [] then []
    else if |b| == 1 then [b[0] / 4, b[0] % 4 * 16]
    else if |b| == 2 then [b[0] / 4, b[0] % 4 * 16 + b[1] / 16, b[1] % 16 * 4]
    else [b[0] / 4, b[0] % 4 * 16 + b[1] / 16, b[1] % 16 * 4 + b[2] / 64, b[2] % 64] + Unpack(b[3..])
  }

  function Chars(v: seq<int>): string {
    if v == [] then "" else [Base64Char(if 0 <= v[0] < 64 then v[0] else 0)] + Chars(v[1..])
  }

  lemma ThreeBytes(x: Byte, y: Byte, z: Byte)
    ensures x / 4 * 4 + (x % 4 * 16 + y / 16) / 16 == x
    ensures (x % 4 * 16 + y / 16) % 16 * 16 + (y % 16 * 4 + z / 64) / 4 == y
    ensures (y % 16 * 4 + z / 64) % 4 * 64 + z % 64 == z
  {
  }

  lemma {:induction false} UnpackRange(b: seq<Byte>)
    ensures forall i :: 0 <= i < |Unpack(b)| ==> 0 <= Unpack(b)[i] < 64
  {
    if |b| >= 3 {
      UnpackRange(b[3..]);
    }
  }

  lemma PackFour(x: Byte, y: Byte, z: Byte, v: seq<int>)
    ensures var u := [x / 4, x % 4 * 16 + y / 16, y % 16 * 4 + z / 64, z % 64] + v;
            Pack(u) == if Pack(v).None? then None else Some([x, y, z] + Pack(v).value)
  {
    ThreeBytes(x, y, z);
    var u := [x / 4, x % 4 * 16 + y / 16, y % 16 * 4 + z / 64, z % 64] + v;
    assert u[4..] == v;
  }

  lemma {:induction false} PackUnpack(b: seq<Byte>)
    ensures Pack(Unpack(b)) == Some(b)
  {
    if |b| >= 3 {
      PackUnpack(b[3..]);
      PackFour(b[0], b[1], b[2], Unpack(b[3..]));
      assert b == [b[0], b[1], b[2]] + b[3..];
    } else if |b| == 2 {
      assert b == [b[0], b[1]];
    } else if |b| == 1 {
      assert b == [b[0]];
    }
  }

  lemma {:induction false} CharsConcat(u: seq<int>, v: seq<int>)
    ensures Chars(u + v) == Chars(u) + Chars(v)
  {
    if u == [] {
      assert u + v == v;
    } else {
      assert (u + v)[1..] == u[1..] + v;
      CharsConcat(u[1..], v);
    }
  }

  lemma {:induction false} EncodeIsChars(b: seq<Byte>)
    ensures EncodeBase64(b) == Chars(Unpack(b))
  {
    UnpackRange(b);
    if |b| >= 3 {
      EncodeIsChars(b[3..]);
      var head := [b[0] / 4, b[0] % 4 * 16 + b[1] / 16, b[1] % 16 * 4 + b[2] / 64, b[2] % 64];
      CharsConcat(head, Unpack(b[3..]));
      CharsFour(head);
    } else if |b| == 2 {
      CharsThree(Unpack(b));
    } else if |b| == 1 {
      CharsTwo(Unpack(b));
    }
  }

  lemma CharsTwo(v: seq<int>)
    requires |v| == 2 && 0 <= v[0] < 64 && 0 <= v[1] < 64
    ensures Chars(v) == [Base64Char(v[0]), Base64Char(v[1])]
  {
    assert v[1..] == [v[1]] && Chars([v[1]]) == [Base64Char(v[1])];
  }

  lemma CharsThree(v: seq<int>)
    requires |v| == 3 && 0 <= v[0] < 64 && 0 <= v[1] < 64 && 0 <= v[2] < 64
    ensures Chars(v) == [Base64Char(v[0]), Base64Char(v[1]), Base64Char(v[2])]
  {
    CharsTwo(v[1..]);
  }

  lemma CharsFour(v: seq<int>)
    requires |v| == 4 && forall i :: 0 <= i < 4 ==> 0 <= v[i] < 64
    ensures Chars(v) == [Base64Char(v[0]), Base64Char(v[1]), Base64Char(v[2]), Base64Char(v[3])]
  {
    CharsThree(v[1..]);
  }

  lemma {:induction false} CharsRead(v: seq<int>)
    requires forall i :: 0 <= i < |v| ==> 0 <= v[i] < 64
    ensures StripBreaks(Chars(v)) == Chars(v) && Sextets(Chars(v)) == Some(v)
    ensures forall i :: 0 <= i < |Chars(v)| ==> Base64Value(Chars(v)[i]).Some?
  {
    if v != [] {
      Base64CharValue(v[0]);
      assert Chars(v)[1..] == Chars(v[1..]);
      CharsRead(v[1..]);
      assert [v[0]] + v[1..] == v;
    }
  }

  /** Every byte string is read back as encoded, and the encoding uses only the 64 characters. */
  lemma DecodeEncodeBase64(b: seq<Byte>)
    ensures DecodeBase64(EncodeBase64(b)) == Some(b)
    ensures forall i :: 0 <= i < |EncodeBase64(b)| ==> Base64Value(EncodeBase64(b)[i]).Some?
  {
    EncodeIsChars(b);
    PackUnpack(b);
    UnpackRange(b);
    CharsRead(Unpack(b));
  }

  // ----- Splitting -----

  function Split(s: string, sep: char): (parts: seq<string>)
    ensures |parts| >= 1
  {
    if s == "" then [""]
    else
      var rest := Split(s[1..], sep);
      if s[0] == sep then [""] + rest else [[s[0]] + rest[0]] + rest[1..]
  }

  lemma {:induction false} SplitFirst(part: string, rest: string, sep: char)
    requires sep !in part
    ensures Split(part + [sep] + rest, sep) == [part] + Split(rest, sep)
  {
    var s := part + [sep] + rest;
    if part == "" {
      assert s[1..] == rest;
    } else {
      assert s[1..] == part[1..] + [sep] + rest;
      SplitFirst(part[1..], rest, sep);
      assert [part[0]] + part[1..] == part;
    }
  }

  lemma {:induction false} SplitNone(part: string, sep: char)
    requires sep !in part
    ensures Split(part, sep) == [part]
  {
    if part != "" {
      SplitNone(part[1..], sep);
      assert [part[0]] + part[1..] == part;
    }
  }

  function Join(parts: seq<string>, sep: char): string
    requires |parts| >= 1
  {
    if |parts| == 1 then parts[0] else parts[0] + [sep] + Join(parts[1..], sep)
  }

  /** Splitting loses nothing, and leaves no separator in a part. */
  lemma {:induction false} JoinSplit(s: string, sep: char)
    ensures Join(Split(s, sep), sep) == s
    ensures forall i :: 0 <= i < |Split(s, sep)| ==> sep !in Split(s, sep)[i]
  {
    if s != "" {
      JoinSplit(s[1..], sep);
      var rest := Split(s[1..], sep);
      if s[0] == sep {
        assert ([""] + rest)[1..] == rest;
      } else {
        var parts := [[s[0]] + rest[0]] + rest[1..];
        assert parts[1..] == rest[1..];
        assert [s[0]] + s[1..] == s;
      }
    }
  }

  lemma JoinFive(a: string, b: string, c: string, d: string, sep: char)
    ensures Join(["", a, b, c, d], sep) == [sep] + a + [sep] + b + [sep] + c + [sep] + d
  {
    var bcd := b + [sep] + (c + [sep] + d);
    assert Join([d], sep) == d;
    assert ["", a, b, c, d][1..] == [a, b, c, d] && [a, b, c, d][1..] == [b, c, d];
    assert [b, c, d][1..] == [c, d] && [c, d][1..] == [d];
    assert Join([c, d], sep) == c + [sep] + d;
    assert Join([b, c, d], sep) == bcd;
    assert Join(["", a, b, c, d], sep) == [sep] + (a + [sep] + bcd);
    RegroupFour(a, b, c, d, sep);
  }

  lemma Regroup(x: string, y: string, z: string)
    ensures x + (y + z) == x + y + z
  {
  }

  lemma SplitFour(a: string, b: string, c: string, d: string, sep: char)
    requires sep !in a && sep !in b && sep !in c && sep !in d
    ensures Split([sep] + a + [sep] + b + [sep] + c + [sep] + d, sep) == ["", a, b, c, d]
  {
    SplitNone(d, sep);
    SplitFirst(c, d, sep);
    SplitFirst(b, c + [sep] + d, sep);
    var bcd := b + [sep] + (c + [sep] + d);
    SplitFirst(a, bcd, sep);
    SplitFirst("", a + [sep] + bcd, sep);
    assert "" + [sep] == [sep];
    RegroupFour(a, b, c, d, sep);
  }

  lemma RegroupFour(a: string, b: string, c: string, d: string, sep: char)
    ensures [sep] + (a + [sep] + (b + [sep] + (c + [sep] + d))) == [sep] + a + [sep] + b + [sep] + c + [sep] + d
  {
    var bcd := b + [sep] + (c + [sep] + d);
    Regroup([sep], a + [sep], bcd);
    Regroup([sep], a, [sep]);
    Regroup([sep] + a + [sep], b + [sep], c + [sep] + d);
    Regroup([sep] + a + [sep], b, [sep]);
    Regroup([sep] + a + [sep] + b + [sep], c + [sep], d);
    Regroup([sep] + a + [sep] + b + [sep], c, [sep]);
  }

  // ----- Separators -----

  lemma FirstSeparator(a: string, x: string, b: string, y: string, sep: char)
    requires sep !in a && sep !in b && a + [sep] + x == b + [sep] + y
    ensures a == b && x == y
  {
    var s := a + [sep] + x;
    assert s[|a|] == sep && s[|b|] == sep;
    assert forall i :: 0 <= i < |a| ==> s[i] == a[i];
    assert forall i :: 0 <= i < |b| ==> s[i] == b[i];
    assert a == s[..|a|] && b == s[..|b|];
    assert x == s[|a| + 1..] && y == s[|b| + 1..];
  }

  lemma LastSeparator(x: string, a: string, y: string, b: string, sep: char)
    requires sep !in a && sep !in b && x + [sep] + a == y + [sep] + b
    ensures x == y && a == b
  {
    var s := x + [sep] + a;
    assert s[|x|] == sep && s[|y|] == sep;
    assert forall i :: |x| < i < |s| ==> s[i] == a[i - |x| - 1];
    assert forall i :: |y| < i < |s| ==> s[i] == b[i - |y| - 1];
    assert x == s[..|x|] && y == s[..|y|];
    assert a == s[|x| + 1..] && b == s[|y| + 1..];
  }
}
