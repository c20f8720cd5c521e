/** Machine integers, little-endian numbers, chunk lists and UTF-8 validity. */
module Bytes {

  type u8 = x: int | 0 <= x < 0x100
  type u16 = x: int | 0 <= x < 0x1_0000
  type u32 = x: int | 0 <= x < 0x1_0000_0000
  type u64 = x: int | 0 <= x < 0x1_0000_0000_0000_0000

  /** 256 to the power `width`: one past the largest number of `width` bytes. */
  function Pow256(width: nat): (p: nat)
    ensures p > 0
  {
    if width == 0 then 1 else 256 * Pow256(width - 1)
  }

  lemma Pow256Values()
    ensures Pow256(1) == 0x100
    ensures Pow256(2) == 0x1_0000
    ensures Pow256(4) == 0x1_0000_0000
    ensures Pow256(8) == 0x1_0000_0000_0000_0000
  {
    assert Pow256(3) == 256 * Pow256(2) == 0x100_0000;
    assert Pow256(5) == 256 * Pow256(4);
    assert Pow256(7) == 256 * Pow256(6) == 256 * (256 * Pow256(5));
  }

  /** The low `width` bytes of `n`, least significant first; higher bytes are cut off. */
  function LittleEndian(n: nat, width: nat): (b: seq<u8>)
    ensures |b| == width
  {
    if width == 0 then [] else [n % 256] + LittleEndian(n / 256, width - 1)
  }

  function FromLittleEndian(b: seq<u8>): (n: nat)
    ensures n < Pow256(|b|)
  {
    if b == [] then 0 else b[0] + 256 * FromLittleEndian(b[1..])
  }

  lemma {:induction false} LittleEndianInverse(n: nat, width: nat)
    requires n < Pow256(width)
    ensures FromLittleEndian(LittleEndian(n, width)) == n
  {
    if width != 0 {
      LittleEndianInverse(n / 256, width - 1);
      assert LittleEndian(n, width)[1..] == LittleEndian(n / 256, width - 1);
    }
  }

  lemma {:induction false} FromLittleEndianInverse(b: seq<u8>)
    ensures LittleEndian(FromLittleEndian(b), |b|) == b
  {
    if b != [] {
      FromLittleEndianInverse(b[1..]);
      FirstDigit(b[0], FromLittleEndian(b[1..]));
    }
  }

  lemma FirstDigit(low: u8, high: nat)
    ensures (low + 256 * high) % 256 == low && (low + 256 * high) / 256 == high
  {
  }

  lemma AtLeastOnce(d: int, k: int)
    requires d >= 0
    ensures k >= 1 ==> d * k >= d
    ensures k <= -1 ==> d * k <= -d
  {
  }

  lemma QuotientIs(n: int, d: int, q: int, r: int)
    requires n == d * q + r && 0 <= r < d
    ensures n / d == q
  {
    AtLeastOnce(d, q - n / d);
    assert d * (q - n / d) == n % d - r;
  }

  /** Dividing twice. */
  lemma QuotientTwice(n: nat, d: nat)
    requires d > 0
    ensures n / 256 / d == n / (256 * d)
  {
    var (half, q, r) := (n / 256, n / 256 / d, n / 256 % d);
    assert half == d * q + r;
    assert n == 256 * (d * q) + (256 * r + n % 256);
    assert 256 * (d * q) == (256 * d) * q;
    QuotientIs(n, 256 * d, q, 256 * r + n % 256);
  }

  /** Byte `i` holds the digit of 256 to the power `i`. */
  lemma {:induction false} LittleEndianDigit(n: nat, width: nat, i: nat)
    requires i < width
    ensures LittleEndian(n, width)[i] == n / Pow256(i) % 256
  {
    if i != 0 {
      LittleEndianDigit(n / 256, width - 1, i - 1);
      QuotientTwice(n, Pow256(i - 1));
    }
  }

  /** What is left of a list of chunks when the cuts between them are forgotten. */
  function Flatten(chunks: seq<seq<u8>>): seq<u8>
  {
    if chunks == [] then [] else chunks[0] + Flatten(chunks[1..])
  }

  lemma {:induction false} FlattenAppend(a: seq<seq<u8>>, b: seq<seq<u8>>)
    ensures Flatten(a + b) == Flatten(a) + Flatten(b)
  {
    if a == [] {
      assert a + b == b;
    } else {
      assert (a + b)[1..] == a[1..] + b;
      FlattenAppend(a[1..], b);
    }
  }

  /** Length of the well-formed UTF-8 character at the head of `s`, 0 if there is none
      (Table 3-7 of the Unicode Standard, which `String::from_utf8` follows). */
  function Utf8Head(s: seq<u8>): (n: nat)
    ensures n <= |s|
  {
    if s == [] then 0
    else if s[0] < 0x80 then 1
    else if 0xC2 <= s[0] <= 0xDF && Continues(s, 1, 0x80, 0xBF) then 2
    else if Continues(s, 1, if s[0] == 0xE0 then 0xA0 else 0x80, if s[0] == 0xED then 0x9F else 0xBF)
      && 0xE0 <= s[0] <= 0xEF && Continues(s, 2, 0x80, 0xBF) then 3
    else if Continues(s, 1, if s[0] == 0xF0 then 0x90 else 0x80, if s[0] == 0xF4 then 0x8F else 0xBF)
      && 0xF0 <= s[0] <= 0xF4 && Continues(s, 2, 0x80, 0xBF) && Continues(s, 3, 0x80, 0xBF) then 4
    else 0
  }

  predicate Continues(s: seq<u8>, i: nat, low: u8, high: u8) {
    i < |s| && low <= s[i] <= high
  }

  predicate ValidUtf8(s: seq<u8>) {
    s == [] || (Utf8Head(s) > 0 && ValidUtf8(s[Utf8Head(s)..]))
  }

  /** A Rust `String`: its bytes, which are always valid UTF-8. */
  type Utf8 = s: seq<u8> | ValidUtf8(s)
}
