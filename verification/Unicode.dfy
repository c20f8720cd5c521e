/** The UTF-8 that the codec accepts is the UTF-8 of some text. */
module Unicode {
  import opened Bytes

  /** A Unicode scalar value: a code point that is not a surrogate. */
  type Scalar = c: int | 0 <= c < 0xD800 || 0xE000 <= c < 0x11_0000

  /** Its bytes: six bits to a continuation byte, the others in the first. */
  function EncodeScalar(c: Scalar): (b: seq<u8>)
    ensures 1 <= |b| <= 4
  {
    if c < 0x80 then [c]
    else if c < 0x800 then [0xC0 + c / 0x40, 0x80 + c % 0x40]
    else if c < 0x1_0000 then [0xE0 + c / 0x1000, 0x80 + c / 0x40 % 0x40, 0x80 + c % 0x40]
    else [0xF0 + c / 0x4_0000, 0x80 + c / 0x1000 % 0x40, 0x80 + c / 0x40 % 0x40, 0x80 + c % 0x40]
  }

  function EncodeText(text: seq<Scalar>): seq<u8> {
    if text == [] then [] else EncodeScalar(text[0]) + EncodeText(text[1..])
  }

  lemma EncodedHead(c: Scalar, rest: seq<u8>)
    ensures Utf8Head(EncodeScalar(c) + rest) == |EncodeScalar(c)|
  {
  }

  /** What one to four bytes stand for. */
  function ScalarOf(b: seq<u8>): int {
    match |b|
    case 1 => b[0]
    case 2 => (b[0] as int - 0xC0) * 0x40 + (b[1] as int - 0x80)
    case 3 => (b[0] as int - 0xE0) * 0x1000 + (b[1] as int - 0x80) * 0x40 + (b[2] as int - 0x80)
    case 4 =>
      (b[0] as int - 0xF0) * 0x4_0000 + (b[1] as int - 0x80) * 0x1000 + (b[2] as int - 0x80) * 0x40 + (b[3] as int - 0x80)
    case _ => 0
  }

  /** Base 64. */
  lemma Digits(n: int, a: int, x: int, y: int, z: int)
    requires 0 <= a && 0 <= x < 0x40 && 0 <= y < 0x40 && 0 <= z < 0x40
    ensures n == a * 0x4_0000 + x * 0x1000 + y * 0x40 + z
       <==> n >= 0 && n / 0x4_0000 == a && n / 0x1000 % 0x40 == x && n / 0x40 % 0x40 == y && n % 0x40 == z
  {
    Regroup(n);
    if n == a * 0x4_0000 + x * 0x1000 + y * 0x40 + z {
      assert n / 0x40 == a * 0x1000 + x * 0x40 + y;
      assert n / 0x40 / 0x40 == a * 0x40 + x;
    }
  }

  lemma Regroup(n: int)
    ensures n / 0x1000 == n / 0x40 / 0x40
    ensures n / 0x4_0000 == n / 0x40 / 0x40 / 0x40
  {
  }

  lemma ScalarBack(c: Scalar)
    ensures ScalarOf(EncodeScalar(c)) == c
  {
    Digits(c, c / 0x4_0000, c / 0x1000 % 0x40, c / 0x40 % 0x40, c % 0x40);
  }

  /** The bytes at the head are those of a scalar value. */
  lemma HeadIsEncoded(s: seq<u8>) returns (c: Scalar)
    requires Utf8Head(s) > 0
    ensures EncodeScalar(c) == s[..Utf8Head(s)]
  {
    match Utf8Head(s)
    case 1 =>
      c := s[0];
    case 2 =>
      c := ScalarOf(s[..2]);
      Digits(c, 0, 0, s[0] as int - 0xC0, s[1] as int - 0x80);
    case 3 =>
      c := ScalarOf(s[..3]);
      Digits(c, 0, s[0] as int - 0xE0, s[1] as int - 0x80, s[2] as int - 0x80);
    case _ =>
      c := ScalarOf(s[..4]);
      Digits(c, s[0] as int - 0xF0, s[1] as int - 0x80, s[2] as int - 0x80, s[3] as int - 0x80);
  }

  lemma {:induction false} EncodedIsValid(text: seq<Scalar>)
    ensures ValidUtf8(EncodeText(text))
  {
    if text != [] {
      EncodedHead(text[0], EncodeText(text[1..]));
      EncodedIsValid(text[1..]);
      hide Utf8Head, EncodeScalar;
    }
  }

  lemma {:induction false} ValidIsEncoded(s: seq<u8>) returns (text: seq<Scalar>)
    requires ValidUtf8(s)
    ensures EncodeText(text) == s
  {
    hide Utf8Head, EncodeScalar;
    text := [];
    if s != [] {
      var c := HeadIsEncoded(s);
      var more := ValidIsEncoded(s[Utf8Head(s)..]);
      text := [c] + more;
      assert text[1..] == more;
    }
  }

  /** Bytes are a string if and only if they are the encoding of some text. */
  lemma ValidMeansEncoded(s: seq<u8>)
    ensures ValidUtf8(s) <==> exists text :: EncodeText(text) == s
  {
    if ValidUtf8(s) {
      var text := ValidIsEncoded(s);
    }
    forall text ensures ValidUtf8(EncodeText(text)) {
      EncodedIsValid(text);
    }
  }

  /** And of one text only. */
  lemma {:induction false} EncodingIsInjective(a: seq<Scalar>, b: seq<Scalar>)
    requires EncodeText(a) == EncodeText(b)
    ensures a == b
  {
    if a != [] && b != [] {
      var (ra, rb) := (EncodeText(a[1..]), EncodeText(b[1..]));
      EncodedHead(a[0], ra);
      EncodedHead(b[0], rb);
      var n := |EncodeScalar(a[0])|;
      assert EncodeScalar(a[0]) == EncodeText(a)[..n] && EncodeScalar(b[0]) == EncodeText(b)[..n];
      assert ra == EncodeText(a)[n..] && rb == EncodeText(b)[n..];
      ScalarBack(a[0]);
      ScalarBack(b[0]);
      EncodingIsInjective(a[1..], b[1..]);
    }
  }
}
