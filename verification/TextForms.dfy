/**
 The texts the encodings write, by position: hexadecimal and base64 as in sections 8 and 4 of RFC 4648, and decimal
 numbers.
 */
module TextForms {
  import opened Encodings

  const HEX_DIGITS := "0123456789abcdef"
  const BASE64_LETTERS := "ABCDEFGHIJKLMNOPQRSTUVWXYZ" + "abcdefghijklmnopqrstuvwxyz" + "0123456789" + "+/"

  function Hex(v: int): char
    requires 0 <= v < 16
  {
    HEX_DIGITS[v]
  }

  function Letter(v: int): char
    requires 0 <= v < 64
  {
    BASE64_LETTERS[v]
  }

  lemma HexDigit(v: int)
    requires 0 <= v < 16
    ensures HexChar(v) == Hex(v)
  {
  }

  lemma BaseLetter(v: int)
    requires 0 <= v < 64
    ensures Base64Char(v) == Letter(v)
  {
  }

  /** Two lower-case digits for each byte, the high one first. */
  lemma {:induction false} HexText(b: seq<Byte>, k: nat)
    requires k < |b|
    ensures |EncodeHex(b)| == 2 * |b|
    ensures EncodeHex(b)[2 * k] == Hex(b[k] / 16) && EncodeHex(b)[2 * k + 1] == Hex(b[k] % 16)
  {
    EncodeHexLength(b);
    EncodeHexLength(b[1..]);
    if k == 0 {
      HexDigit(b[0] / 16);
      HexDigit(b[0] % 16);
    } else {
      HexText(b[1..], k - 1);
    }
  }

  /** Three bytes as one number of 24 bits. */
  type Group = g: int | 0 <= g < 0x100_0000

  function GroupOf(x: Byte, y: Byte, z: Byte): Group {
    0x1_0000 * x + 0x100 * y + z
  }

  /** The six bits of a group at a place, the highest first. */
  function Sextet(group: Group, place: nat): (v: int)
    ensures 0 <= v < 64
  {
    if place == 0 then group / 0x4_0000
    else if place == 1 then group / 0x1000 % 64
    else if place == 2 then group / 64 % 64
    else group % 64
  }

  /** The byte at `i`, and zero behind the end. */
  function At(b: seq<Byte>, i: nat): Byte {
    if i < |b| then b[i] else 0
  }

  /** What stands at place `k`: the letter of its six bits in its group of three bytes. */
  function WrittenAt(b: seq<Byte>, k: nat): char {
    var i := k / 4 * 3;
    Letter(Sextet(GroupOf(At(b, i), At(b, i + 1), At(b, i + 2)), k % 4))
  }

  /** How three bytes are cut. */
  function Cut(x: Byte, y: Byte, z: Byte, place: nat): (v: int)
    ensures 0 <= v < 64
  {
    if place == 0 then x / 4
    else if place == 1 then x % 4 * 16 + y / 16
    else if place == 2 then y % 16 * 4 + z / 64
    else z % 64
  }

  /** Four numbers of six bits are found again in the number they make up. */
  lemma FourSextets(a: int, b: int, c: int, d: int)
    requires 0 <= a < 64 && 0 <= b < 64 && 0 <= c < 64 && 0 <= d < 64
    ensures var g: Group := 0x4_0000 * a + 0x1000 * b + 64 * c + d;
            Sextet(g, 0) == a && Sextet(g, 1) == b && Sextet(g, 2) == c && Sextet(g, 3) == d
  {
    var n := 0x4_0000 * a + 0x1000 * b + 64 * c + d;
    assert n / 0x1000 == 64 * a + b;
    assert n / 64 == 0x1000 * a + 64 * b + c;
  }

  lemma CutIsSextet(x: Byte, y: Byte, z: Byte, place: nat)
    requires place < 4
    ensures Sextet(GroupOf(x, y, z), place) == Cut(x, y, z, place)
  {
    var a, b, c, d := Cut(x, y, z, 0), Cut(x, y, z, 1), Cut(x, y, z, 2), Cut(x, y, z, 3);
    CutIsGroup(x, y, z);
    FourSextets(a, b, c, d);
  }

  lemma CutIsGroup(x: Byte, y: Byte, z: Byte)
    ensures GroupOf(x, y, z) == 0x4_0000 * Cut(x, y, z, 0) + 0x1000 * Cut(x, y, z, 1) + 64 * Cut(x, y, z, 2)
                                + Cut(x, y, z, 3)
  {
  }

  lemma {:induction false} Base64Length(b: seq<Byte>)
    ensures |EncodeBase64(b)| == (4 * |b| + 2) / 3
  {
    if |b| > 2 {
      Base64Length(b[3..]);
    }
  }

  lemma FirstFour(b: seq<Byte>, k: nat)
    requires k < 4 && k < |EncodeBase64(b)|
    ensures EncodeBase64(b)[k] == Base64Char(Cut(At(b, 0), At(b, 1), At(b, 2), k))
  {
  }

  lemma WrittenFirst(b: seq<Byte>, k: nat)
    requires k < 4
    ensures WrittenAt(b, k) == Letter(Sextet(GroupOf(At(b, 0), At(b, 1), At(b, 2)), k))
  {
    assert k / 4 * 3 == 0 && k % 4 == k;
  }

  lemma WrittenNext(b: seq<Byte>, k: nat)
    requires 4 <= k && |b| > 2
    ensures WrittenAt(b[3..], k - 4) == WrittenAt(b, k)
  {
    var i := (k - 4) / 4 * 3;
    assert k / 4 * 3 == i + 3 && (k - 4) % 4 == k % 4;
    assert At(b[3..], i) == At(b, i + 3) && At(b[3..], i + 1) == At(b, i + 4) && At(b[3..], i + 2) == At(b, i + 5);
  }

  /** Four letters for each three bytes, the high six bits first; the last one or two bytes are filled with zeros. */
  lemma {:induction false} Base64Text(b: seq<Byte>, k: nat)
    requires k < |EncodeBase64(b)|
    ensures |EncodeBase64(b)| == (4 * |b| + 2) / 3
    ensures EncodeBase64(b)[k] == WrittenAt(b, k)
  {
    Base64Length(b);
    if k < 4 {
      FirstFour(b, k);
      var x, y, z := At(b, 0), At(b, 1), At(b, 2);
      CutIsSextet(x, y, z, k);
      BaseLetter(Cut(x, y, z, k));
      WrittenFirst(b, k);
    } else {
      Base64Text(b[3..], k - 4);
      WrittenNext(b, k);
    }
  }

  // ----- Decimal -----

  /** The number without its last `k` decimal digits. */
  function Shorter(n: nat, k: nat): nat {
    if k == 0 then n else Shorter(n / 10, k - 1)
  }

  /**
   The digits of a number, the last one counted first, and none before the highest; a minus sign before a negative
   one.
   */
  lemma {:induction false} DecimalText(n: nat, k: nat)
    requires k < |PrintInt(n)|
    ensures PrintInt(n)[|PrintInt(n)| - 1 - k] == "0123456789"[Shorter(n, k) % 10]
    ensures Shorter(n, |PrintInt(n)|) == 0 && (n > 0 ==> PrintInt(n)[0] != '0')
    ensures n > 0 ==> PrintInt(0 - n) == "-" + PrintInt(n)
  {
    var s := PrintInt(n);
    assert DigitChar(n % 10) == "0123456789"[n % 10];
    if n >= 10 {
      assert s == PrintInt(n / 10) + [DigitChar(n % 10)];
      DecimalText(n / 10, if k == 0 then 0 else k - 1);
    } else {
      assert Shorter(n, 1) == Shorter(n / 10, 0) == 0;
    }
  }
}
