/** Cursors: offsets written in decimal and then in base64, with the standard alphabet and padding. */
module Cursors {
  import opened Common

  const I32_MIN: int := -0x8000_0000
  const I32_MAX: int := 0x7fff_ffff

  datatype CursorError = Base64Error | ParseError

  // ------------------------------------------------------------------ base64

  type sextet = n: nat | n < 64

  function CharOf(n: sextet): char {
    if n < 26 then (n + 'A' as int) as char
    else if n < 52 then (n - 26 + 'a' as int) as char
    else if n < 62 then (n - 52 + '0' as int) as char
    else if n == 62 then '+'
    else '/'
  }

  function SextetOf(c: char): Option<sextet> {
    if 'A' <= c <= 'Z' then Some(c as int - 'A' as int)
    else if 'a' <= c <= 'z' then Some(c as int - 'a' as int + 26)
    else if '0' <= c <= '9' then Some(c as int - '0' as int + 52)
    else if c == '+' then Some(62)
    else if c == '/' then Some(63)
    else None
  }

  // Three bytes x, y, z and the four sextets p, q, r, t that hold the same 24 bits.

  function FirstSextet(x: byte): sextet { x as int / 4 }

  function SecondSextet(x: byte, y: byte): sextet { x as int % 4 * 16 + y as int / 16 }

  function ThirdSextet(y: byte, z: byte): sextet { y as int % 16 * 4 + z as int / 64 }

  function FourthSextet(z: byte): sextet { z as int % 64 }

  /** The second sextet when there is no second byte. */
  function SecondOfOne(x: byte): sextet { x as int % 4 * 16 }

  /** The third sextet when there is no third byte. */
  function ThirdOfTwo(y: byte): sextet { y as int % 16 * 4 }

  function FirstByte(p: sextet, q: sextet): byte { (p as int * 4 + q as int / 16) as byte }

  function SecondByte(q: sextet, r: sextet): byte { (q as int % 16 * 16 + r as int / 4) as byte }

  function ThirdByte(r: sextet, t: sextet): byte { (r as int % 4 * 64 + t as int) as byte }

  function ToBase64(b: Bytes): string {
    if |b| == 0 then ""
    else if |b| == 1 then
      [CharOf(FirstSextet(b[0])), CharOf(SecondOfOne(b[0])), '=', '=']
    else if |b| == 2 then
      [CharOf(FirstSextet(b[0])), CharOf(SecondSextet(b[0], b[1])), CharOf(ThirdOfTwo(b[1])), '=']
    else
      [CharOf(FirstSextet(b[0])), CharOf(SecondSextet(b[0], b[1])),
       CharOf(ThirdSextet(b[1], b[2])), CharOf(FourthSextet(b[2]))]
      + ToBase64(b[3..])
  }

  /** Padding has to be there, only at the end, and the bits it cuts off have to be zero. */
  function FromBase64(s: string): Option<Bytes> {
    if |s| == 0 then Some([])
    else if |s| < 4 || SextetOf(s[0]).None? || SextetOf(s[1]).None? then None
    else
      var p, q, r, t := SextetOf(s[0]).value, SextetOf(s[1]).value, SextetOf(s[2]), SextetOf(s[3]);
      if |s| == 4 && s[2] == '=' && s[3] == '=' then
        if q % 16 == 0 then Some([FirstByte(p, q)]) else None
      else if r.None? then None
      else if |s| == 4 && s[3] == '=' then
        if r.value % 4 == 0 then Some([FirstByte(p, q), SecondByte(q, r.value)]) else None
      else if t.None? then None
      else
        match FromBase64(s[4..])
        case Some(rest) => Some([FirstByte(p, q), SecondByte(q, r.value), ThirdByte(r.value, t.value)] + rest)
        case None => None
  }

  // ------------------------------------------------------------------ characters and bits

  lemma {:induction false} SextetRoundTrip(n: sextet)
    ensures SextetOf(CharOf(n)) == Some(n) && CharOf(n) != '='
  {
  }

  lemma {:induction false} CharRoundTrip(c: char)
    requires SextetOf(c).Some?
    ensures CharOf(SextetOf(c).value) == c && c != '='
  {
  }

  lemma {:induction false} FirstByteIsKept(x: byte, y: byte)
    ensures FirstByte(FirstSextet(x), SecondSextet(x, y)) == x
    ensures FirstByte(FirstSextet(x), SecondOfOne(x)) == x && SecondOfOne(x) % 16 == 0
  {
  }

  lemma {:induction false} SecondByteIsKept(x: byte, y: byte, z: byte)
    ensures SecondByte(SecondSextet(x, y), ThirdSextet(y, z)) == y
    ensures SecondByte(SecondSextet(x, y), ThirdOfTwo(y)) == y && ThirdOfTwo(y) % 4 == 0
  {
    var i, j, k := x as int % 4, y as int, z as int / 64;
    assert (i * 16 + j / 16) % 16 == j / 16;
    assert (j % 16 * 4 + k) / 4 == j % 16;
  }

  lemma {:induction false} ThirdByteIsKept(y: byte, z: byte)
    ensures ThirdByte(ThirdSextet(y, z), FourthSextet(z)) == z
  {
  }

  lemma {:induction false} FirstSextetIsKept(p: sextet, q: sextet)
    ensures FirstSextet(FirstByte(p, q)) == p
  {
  }

  lemma {:induction false} SecondSextetIsKept(p: sextet, q: sextet, r: sextet)
    ensures SecondSextet(FirstByte(p, q), SecondByte(q, r)) == q
    ensures q % 16 == 0 ==> SecondOfOne(FirstByte(p, q)) == q
  {
    var i, j, k := p as int, q as int, r as int / 4;
    assert (i * 4 + j / 16) % 4 == j / 16;
    assert (j % 16 * 16 + k) / 16 == j % 16;
  }

  lemma {:induction false} ThirdSextetIsKept(q: sextet, r: sextet, t: sextet)
    ensures ThirdSextet(SecondByte(q, r), ThirdByte(r, t)) == r
    ensures r % 4 == 0 ==> ThirdOfTwo(SecondByte(q, r)) == r
  {
    var i, j, k := q as int % 16, r as int, t as int;
    assert (i * 16 + j / 4) % 16 == j / 4;
    assert (j % 4 * 64 + k) / 64 == j % 4;
  }

  lemma {:induction false} FourthSextetIsKept(r: sextet, t: sextet)
    ensures FourthSextet(ThirdByte(r, t)) == t
  {
  }

  const UPPER := "ABCDEFGHIJKLMNOPQRSTUVWXYZ"
  const LOWER := "abcdefghijklmnopqrstuvwxyz"
  const DIGITS := "0123456789"
  const ALPHABET := UPPER + LOWER + DIGITS + "+/"

  lemma {:induction false} UpperInOrder(n: nat)
    requires n < 26
    ensures UPPER[n] as int == n + 'A' as int
  {
  }

  lemma {:induction false} LowerInOrder(n: nat)
    requires n < 26
    ensures LOWER[n] as int == n + 'a' as int
  {
  }

  lemma {:induction false} DigitsInOrder(n: nat)
    requires n < 10
    ensures DIGITS[n] as int == n + '0' as int
  {
  }

  /** The characters are those of the standard alphabet, in order. */
  lemma {:induction false} StandardAlphabet(n: sextet)
    ensures CharOf(n) == ALPHABET[n]
  {
    if n < 26 {
      UpperInOrder(n);
    } else if n < 52 {
      LowerInOrder(n - 26);
    } else if n < 62 {
      DigitsInOrder(n - 52);
    }
  }

  /** The four sextets are the bits of the three bytes, the highest first. */
  lemma {:induction false} SameBits(x: byte, y: byte, z: byte)
    ensures var p, q, r, t := FirstSextet(x), SecondSextet(x, y), ThirdSextet(y, z), FourthSextet(z);
            (x as int * 256 + y as int) * 256 + z as int == ((p * 64 + q) * 64 + r) * 64 + t
    ensures SecondOfOne(x) == SecondSextet(x, 0) && ThirdOfTwo(y) == ThirdSextet(y, 0)
  {
  }

  // ------------------------------------------------------------------ groups

  /** Decoding four characters that stand for p, q, r, t. */
  lemma {:induction false} DecodeGroup(s: string, p: sextet, q: sextet, r: sextet, t: sextet, rest: string)
    requires s == [CharOf(p), CharOf(q), CharOf(r), CharOf(t)] + rest && FromBase64(rest).Some?
    ensures FromBase64(s) == Some([FirstByte(p, q), SecondByte(q, r), ThirdByte(r, t)] + FromBase64(rest).value)
  {
    SextetRoundTrip(p);
    SextetRoundTrip(q);
    SextetRoundTrip(r);
    SextetRoundTrip(t);
    assert s[4..] == rest;
  }

  lemma {:induction false} DecodeTwo(p: sextet, q: sextet, r: sextet)
    requires r % 4 == 0
    ensures FromBase64([CharOf(p), CharOf(q), CharOf(r), '=']) == Some([FirstByte(p, q), SecondByte(q, r)])
  {
    SextetRoundTrip(p);
    SextetRoundTrip(q);
    SextetRoundTrip(r);
  }

  lemma {:induction false} DecodeOne(p: sextet, q: sextet)
    requires q % 16 == 0
    ensures FromBase64([CharOf(p), CharOf(q), '=', '=']) == Some([FirstByte(p, q)])
  {
    SextetRoundTrip(p);
    SextetRoundTrip(q);
  }

  /** Encoding three bytes whose sextets are p, q, r, t. */
  lemma {:induction false} EncodeGroup(x: byte, y: byte, z: byte, p: sextet, q: sextet, r: sextet, t: sextet, rest: Bytes)
    requires FirstSextet(x) == p && SecondSextet(x, y) == q && ThirdSextet(y, z) == r && FourthSextet(z) == t
    ensures ToBase64([x, y, z] + rest) == [CharOf(p), CharOf(q), CharOf(r), CharOf(t)] + ToBase64(rest)
  {
    var b := [x, y, z] + rest;
    assert b[3..] == rest;
  }

  lemma {:induction false} EncodeTwo(x: byte, y: byte, p: sextet, q: sextet, r: sextet)
    requires FirstSextet(x) == p && SecondSextet(x, y) == q && ThirdOfTwo(y) == r
    ensures ToBase64([x, y]) == [CharOf(p), CharOf(q), CharOf(r), '=']
  {
  }

  lemma {:induction false} EncodeOne(x: byte, p: sextet, q: sextet)
    requires FirstSextet(x) == p && SecondOfOne(x) == q
    ensures ToBase64([x]) == [CharOf(p), CharOf(q), '=', '=']
  {
  }

  // ------------------------------------------------------------------ round trips

  lemma {:induction false} OneRoundTrip(x: byte)
    ensures FromBase64(ToBase64([x])) == Some([x])
  {
    EncodeOne(x, FirstSextet(x), SecondOfOne(x));
    FirstByteIsKept(x, x);
    DecodeOne(FirstSextet(x), SecondOfOne(x));
  }

  lemma {:induction false} TwoRoundTrip(x: byte, y: byte)
    ensures FromBase64(ToBase64([x, y])) == Some([x, y])
  {
    EncodeTwo(x, y, FirstSextet(x), SecondSextet(x, y), ThirdOfTwo(y));
    FirstByteIsKept(x, y);
    SecondByteIsKept(x, y, y);
    DecodeTwo(FirstSextet(x), SecondSextet(x, y), ThirdOfTwo(y));
  }

  lemma {:induction false} GroupRoundTrip(x: byte, y: byte, z: byte, rest: Bytes)
    requires FromBase64(ToBase64(rest)) == Some(rest)
    ensures FromBase64(ToBase64([x, y, z] + rest)) == Some([x, y, z] + rest)
  {
    var p, q, r, t := FirstSextet(x), SecondSextet(x, y), ThirdSextet(y, z), FourthSextet(z);
    EncodeGroup(x, y, z, p, q, r, t, rest);
    FirstByteIsKept(x, y);
    SecondByteIsKept(x, y, z);
    ThirdByteIsKept(y, z);
    DecodeGroup(ToBase64([x, y, z] + rest), p, q, r, t, ToBase64(rest));
  }

  lemma {:induction false} ShortRoundTrip(b: Bytes)
    requires 0 < |b| < 3
    ensures FromBase64(ToBase64(b)) == Some(b)
  {
    if |b| == 1 {
      assert b == [b[0]];
      OneRoundTrip(b[0]);
    } else {
      assert b == [b[0], b[1]];
      TwoRoundTrip(b[0], b[1]);
    }
  }

  lemma {:induction false} LongRoundTrip(b: Bytes)
    requires |b| > 2 && FromBase64(ToBase64(b[3..])) == Some(b[3..])
    ensures FromBase64(ToBase64(b)) == Some(b)
  {
    var x, y, z, rest := b[0], b[1], b[2], b[3..];
    assert b == [x, y, z] + rest;
    GroupRoundTrip(x, y, z, rest);
  }

  /** Decoding undoes encoding, for all bytes. */
  lemma {:induction false} Base64RoundTrip(b: Bytes)
    ensures FromBase64(ToBase64(b)) == Some(b)
  {
    if |b| > 2 {
      Base64RoundTrip(b[3..]);
      LongRoundTrip(b);
    } else if |b| > 0 {
      ShortRoundTrip(b);
    }
  }

  /** The last four characters, with padding. */
  lemma {:induction false} PaddedIsCanonical(s: string)
    requires FromBase64(s).Some? && |s| == 4 && s[3] == '='
    ensures ToBase64(FromBase64(s).value) == s
  {
    var p, q := SextetOf(s[0]).value, SextetOf(s[1]).value;
    CharRoundTrip(s[0]);
    CharRoundTrip(s[1]);
    FirstSextetIsKept(p, q);
    if s[2] == '=' {
      SecondSextetIsKept(p, q, q);
      EncodeOne(FirstByte(p, q), p, q);
      assert s == [s[0], s[1], '=', '='];
    } else {
      var r := SextetOf(s[2]).value;
      CharRoundTrip(s[2]);
      SecondSextetIsKept(p, q, r);
      ThirdSextetIsKept(q, r, r);
      EncodeTwo(FirstByte(p, q), SecondByte(q, r), p, q, r);
      assert s == [s[0], s[1], s[2], '='];
    }
  }

  lemma {:induction false} BytesAreCanonical(p: sextet, q: sextet, r: sextet, t: sextet, rest: Bytes)
    ensures ToBase64([FirstByte(p, q), SecondByte(q, r), ThirdByte(r, t)] + rest)
            == [CharOf(p), CharOf(q), CharOf(r), CharOf(t)] + ToBase64(rest)
  {
    FirstSextetIsKept(p, q);
    SecondSextetIsKept(p, q, r);
    ThirdSextetIsKept(q, r, t);
    FourthSextetIsKept(r, t);
    EncodeGroup(FirstByte(p, q), SecondByte(q, r), ThirdByte(r, t), p, q, r, t, rest);
  }

  /** What decodes is what encoding gives: no two strings decode to the same bytes. */
  lemma {:induction false} Base64IsCanonical(s: string)
    requires FromBase64(s).Some?
    ensures ToBase64(FromBase64(s).value) == s
  {
    if |s| == 4 && s[3] == '=' {
      PaddedIsCanonical(s);
    } else if |s| > 0 {
      var p, q, r, t := SextetOf(s[0]).value, SextetOf(s[1]).value, SextetOf(s[2]).value, SextetOf(s[3]).value;
      Base64IsCanonical(s[4..]);
      BytesAreCanonical(p, q, r, t, FromBase64(s[4..]).value);
      CharRoundTrip(s[0]);
      CharRoundTrip(s[1]);
      CharRoundTrip(s[2]);
      CharRoundTrip(s[3]);
      assert s == [s[0], s[1], s[2], s[3]] + s[4..];
    }
  }

  // ------------------------------------------------------------------ decimal

  function Digit(d: nat): byte
    requires d < 10
  {
    (d + 48) as byte
  }

  /** The decimal digits of `n`, without leading zeros. */
  function Digits(n: nat): (r: Bytes)
    ensures |r| > 0
  {
    if n < 10 then [Digit(n)] else Digits(n / 10) + [Digit(n % 10)]
  }

  function ToDecimal(n: int): Bytes {
    if n < 0 then [45] + Digits(-n) else Digits(n)
  }

  function DigitsValue(b: Bytes): Option<nat> {
    if b == [] then Some(0)
    else
      var d := Last(b) as int - 48;
      match DigitsValue(Front(b))
      case Some(n) => if 0 <= d < 10 then Some(n * 10 + d) else None
      case None => None
  }

  function Number(sign: int, digits: Bytes): Option<int> {
    if digits == [] then None
    else
      match DigitsValue(digits)
      case Some(n) => if I32_MIN <= sign * n <= I32_MAX then Some(sign * n) else None
      case None => None
  }

  /** A sign is allowed in front of the digits; the number has to fit 32 bits. */
  function ParseI32(b: Bytes): Option<int> {
    if b == [] then None
    else if b[0] == 45 then Number(-1, b[1..])
    else if b[0] == 43 then Number(1, b[1..])
    else Number(1, b)
  }

  lemma {:induction false} DigitsRoundTrip(n: nat)
    ensures DigitsValue(Digits(n)) == Some(n)
    ensures 48 <= Digits(n)[0]
  {
    if n < 10 {
      assert Front(Digits(n)) == [];
    } else {
      DigitsRoundTrip(n / 10);
      assert Front(Digits(n)) == Digits(n / 10);
    }
  }

  lemma {:induction false} DecimalRoundTrip(n: int)
    requires I32_MIN <= n <= I32_MAX
    ensures ParseI32(ToDecimal(n)) == Some(n)
  {
    DigitsRoundTrip(if n < 0 then -n else n);
    if n < 0 {
      assert ToDecimal(n)[1..] == Digits(-n);
    }
  }

  predicate AllDigits(b: Bytes) {
    forall i | 0 <= i < |b| :: '0' as int <= b[i] as int <= '9' as int
  }

  lemma {:induction false} DigitsHaveValue(b: Bytes)
    ensures DigitsValue(b).Some? <==> AllDigits(b)
  {
    if b != [] {
      DigitsHaveValue(Front(b));
      assert b == Front(b) + [Last(b)];
    }
  }

  /** The digits behind the sign, if there is one. */
  function Unsigned(b: Bytes): Bytes {
    if b != [] && (b[0] as int == '-' as int || b[0] as int == '+' as int) then b[1..] else b
  }

  /** A number is read if and only if it is digits, with or without a sign, and fits 32 bits; a minus makes it negative. */
  lemma {:induction false} ParsesIff(b: Bytes)
    ensures var digits := Unsigned(b);
            var sign := if b != [] && b[0] as int == '-' as int then -1 else 1;
            if digits == [] || !AllDigits(digits) then ParseI32(b).None?
            else
              && DigitsValue(digits).Some?
              && var n := sign * DigitsValue(digits).value;
                 ParseI32(b) == if I32_MIN <= n <= I32_MAX then Some(n) else None
  {
    DigitsHaveValue(Unsigned(b));
  }

  // ------------------------------------------------------------------ cursors

  function Encode(offset: int): string {
    ToBase64(ToDecimal(offset))
  }

  function Decode(value: string): Result<int, CursorError> {
    match FromBase64(value)
    case None => Err(Base64Error)
    case Some(bytes) =>
      match ParseI32(bytes)
      case None => Err(ParseError)
      case Some(offset) => Ok(offset)
  }

  /** Decoding undoes encoding, for every 32-bit offset, the negative ones included. */
  lemma {:induction false} CursorRoundTrip(offset: int)
    requires I32_MIN <= offset <= I32_MAX
    ensures Decode(Encode(offset)) == Ok(offset)
  {
    Base64RoundTrip(ToDecimal(offset));
    DecimalRoundTrip(offset);
  }

  /** A value that is not decoded is not base64, or is not a number of 32 bits. */
  lemma {:induction false} DecodeFailsIff(value: string)
    ensures Decode(value) == Err(Base64Error) <==> FromBase64(value).None?
    ensures Decode(value) == Err(ParseError) <==> FromBase64(value).Some? && ParseI32(FromBase64(value).value).None?
  {
  }

  /** Row 10 is written so. */
  lemma {:induction false} TenIsWritten()
    ensures ToDecimal(10) == [49, 48] && Encode(10) == "MTA="
  {
    assert Digits(10 / 10) == [49] && Digits(10) == [49] + [48];
    assert [49] + [48] == [49, 48];
    EncodeTwo(49, 48, 12, 19, 0);
  }
}
