/** Base 64 of sections 4 and 5 of RFC 4648, and the decoder for well-formed text of either alphabet. */
module Base64 {

  type Byte = b: int | 0 <= b < 256

  /** Section 4 pads with '=' and uses '+' and '/'; section 5, as Node writes it, uses '-' and '_' unpadded. */
  datatype Alphabet = Standard | UrlSafe

  function Digit(a: Alphabet, n: int): char
    requires 0 <= n < 64
  {
    if n < 26 then (65 + n) as char
    else if n < 52 then (71 + n) as char
    else if n < 62 then (n - 4) as char
    else if n == 62 then (if a == Standard then '+' else '-')
    else (if a == Standard then '/' else '_')
  }

  predicate IsDigit(c: char) {
    'A' <= c <= 'Z' || 'a' <= c <= 'z' || '0' <= c <= '9' || c == '+' || c == '-' || c == '/' || c == '_'
  }

  function Value(c: char): (n: int)
    requires IsDigit(c)
    ensures 0 <= n < 64
  {
    if 'A' <= c <= 'Z' then c as int - 65
    else if 'a' <= c <= 'z' then c as int - 71
    else if '0' <= c <= '9' then c as int + 4
    else if c == '+' || c == '-' then 62
    else 63
  }

  function Pad(a: Alphabet, s: string): string {
    if a == Standard then s else ""
  }

  /** Three bytes in four digits. */
  function Group(a: Alphabet, b0: Byte, b1: Byte, b2: Byte): string {
    [Digit(a, b0 / 4), Digit(a, b0 % 4 * 16 + b1 / 16), Digit(a, b1 % 16 * 4 + b2 / 64), Digit(a, b2 % 64)]
  }

  function Encode(a: Alphabet, b: seq<Byte>): string {
    if |b| == 0 then ""
    else if |b| == 1 then [Digit(a, b[0] / 4), Digit(a, b[0] % 4 * 16)] + Pad(a, "==")
    else if |b| == 2 then
      [Digit(a, b[0] / 4), Digit(a, b[0] % 4 * 16 + b[1] / 16), Digit(a, b[1] % 16 * 4)] + Pad(a, "=")
    else Group(a, b[0], b[1], b[2]) + Encode(a, b[3..])
  }

  /** How many of the next four characters are digits before the first that is not. */
  function Digits(s: string): (n: nat)
    ensures n <= 4 && n <= |s| && forall i :: 0 <= i < n ==> IsDigit(s[i])
  {
    if |s| == 0 || !IsDigit(s[0]) then 0
    else if |s| == 1 || !IsDigit(s[1]) then 1
    else if |s| == 2 || !IsDigit(s[2]) then 2
    else if |s| == 3 || !IsDigit(s[3]) then 3
    else 4
  }

  function Decode(s: string): seq<Byte> {
    var n := Digits(s);
    if n < 2 then []
    else
      var b0: Byte := Value(s[0]) * 4 + Value(s[1]) / 16;
      if n == 2 then [b0]
      else
        var b1: Byte := Value(s[1]) % 16 * 16 + Value(s[2]) / 4;
        if n == 3 then [b0, b1]
        else [b0, b1, Value(s[2]) % 4 * 64 + Value(s[3])] + Decode(s[4..])
  }

  lemma DigitValue(a: Alphabet, n: int)
    requires 0 <= n < 64
    ensures IsDigit(Digit(a, n)) && Value(Digit(a, n)) == n
  {
  }

  lemma DecodeShort(a: Alphabet, b: seq<Byte>)
    requires |b| < 3
    ensures Decode(Encode(a, b)) == b
  {
    if |b| > 0 {
      DigitValue(a, b[0] / 4);
      DigitValue(a, b[0] % 4 * 16 + if |b| == 2 then b[1] / 16 else 0);
      if |b| == 2 {
        DigitValue(a, b[1] % 16 * 4);
      }
      assert b == if |b| == 1 then [b[0]] else [b[0], b[1]];
    }
  }

  /** Three bytes are recovered from their four digits. */
  lemma Recompose(b0: Byte, b1: Byte, b2: Byte)
    ensures var d0, d1, d2, d3 := b0 / 4, b0 % 4 * 16 + b1 / 16, b1 % 16 * 4 + b2 / 64, b2 % 64;
      && 0 <= d0 < 64 && 0 <= d1 < 64 && 0 <= d2 < 64 && 0 <= d3 < 64
      && d0 * 4 + d1 / 16 == b0 && d1 % 16 * 16 + d2 / 4 == b1 && d2 % 4 * 64 + d3 == b2
  {
  }

  lemma DecodeDigits(a: Alphabet, d0: int, d1: int, d2: int, d3: int, rest: string, b0: Byte, b1: Byte, b2: Byte)
    requires 0 <= d0 < 64 && 0 <= d1 < 64 && 0 <= d2 < 64 && 0 <= d3 < 64
    requires d0 * 4 + d1 / 16 == b0 && d1 % 16 * 16 + d2 / 4 == b1 && d2 % 4 * 64 + d3 == b2
    ensures Decode([Digit(a, d0), Digit(a, d1), Digit(a, d2), Digit(a, d3)] + rest) == [b0, b1, b2] + Decode(rest)
  {
    DigitValue(a, d0);
    DigitValue(a, d1);
    DigitValue(a, d2);
    DigitValue(a, d3);
    var s := [Digit(a, d0), Digit(a, d1), Digit(a, d2), Digit(a, d3)] + rest;
    assert s[4..] == rest && s[0] == Digit(a, d0) && s[1] == Digit(a, d1);
    assert s[2] == Digit(a, d2) && s[3] == Digit(a, d3);
    assert Digits(s) == 4;
  }

  lemma DecodeGroup(a: Alphabet, b0: Byte, b1: Byte, b2: Byte, rest: string)
    ensures Decode(Group(a, b0, b1, b2) + rest) == [b0, b1, b2] + Decode(rest)
  {
    Recompose(b0, b1, b2);
    DecodeDigits(a, b0 / 4, b0 % 4 * 16 + b1 / 16, b1 % 16 * 4 + b2 / 64, b2 % 64, rest, b0, b1, b2);
  }

  lemma {:induction false} DecodeEncode(a: Alphabet, b: seq<Byte>)
    ensures Decode(Encode(a, b)) == b
  {
    if |b| < 3 {
      DecodeShort(a, b);
    } else {
      DecodeGroup(a, b[0], b[1], b[2], Encode(a, b[3..]));
      DecodeEncode(a, b[3..]);
      assert b == [b[0], b[1], b[2]] + b[3..];
    }
  }

  /** URL-safe text holds digits only, so never the '.' that separates the parts of a token. */
  lemma {:induction false} UrlSafeText(b: seq<Byte>)
    ensures forall c :: c in Encode(UrlSafe, b) ==> IsDigit(c)
    ensures '.' !in Encode(UrlSafe, b)
  {
    if |b| > 0 {
      DigitValue(UrlSafe, b[0] / 4);
      if |b| == 1 {
        DigitValue(UrlSafe, b[0] % 4 * 16);
      } else {
        DigitValue(UrlSafe, b[0] % 4 * 16 + b[1] / 16);
        if |b| == 2 {
          DigitValue(UrlSafe, b[1] % 16 * 4);
        } else {
          DigitValue(UrlSafe, b[1] % 16 * 4 + b[2] / 64);
          DigitValue(UrlSafe, b[2] % 64);
          UrlSafeText(b[3..]);
        }
      }
    }
  }

  /** Section 4 writes whole groups of four, section 5 only the digits it needs. */
  lemma {:induction false} EncodedLength(b: seq<Byte>)
    ensures |Encode(Standard, b)| == (|b| + 2) / 3 * 4
    ensures |Encode(UrlSafe, b)| == (|b| * 4 + 2) / 3
  {
    if |b| >= 3 {
      EncodedLength(b[3..]);
    }
  }

  /** Test vectors of section 10 of RFC 4648, and the two digits in which the alphabets differ. */
  lemma Vectors()
    ensures Encode(Standard, [0x66]) == "Zg==" && Encode(Standard, [0x66, 0x6F]) == "Zm8="
    ensures Encode(Standard, [0x66, 0x6F, 0x6F]) == "Zm9v" && Encode(UrlSafe, [0x66]) == "Zg"
    ensures Encode(Standard, [0xFB, 0xFF]) == "+/8=" && Encode(UrlSafe, [0xFB, 0xFF]) == "-_8"
  {
    var none: seq<Byte> := [];
    assert [0x66, 0x6F, 0x6F][3..] == none && Encode(Standard, none) == "";
  }
}
