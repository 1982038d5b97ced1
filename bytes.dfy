/** Machine-level value types shared by the drivers and the audio model. */
module Bytes {

  /** An unsigned 8-bit value (uint8_t). */
  type Byte = x: int | 0 <= x < 0x100

  /** An unsigned 16-bit value (uint16_t): an RGB565 colour or a panel coordinate. */
  type Word = x: int | 0 <= x < 0x1_0000

  datatype Option<T> = None | Some(value: T)

  /** Status codes returned by the drivers (esp_err_t). */
  datatype EspErr = EspOk | EspFail | EspErrInvalidArg | EspErrNoMem

  function Min(a: int, b: int): int { if a < b then a else b }

  function Max(a: int, b: int): int { if a < b then b else a }

  /** The high byte of a word, `w >> 8`. */
  function Hi(w: Word): Byte { w / 0x100 }

  /** The low byte of a word, `w & 0xFF`. */
  function Lo(w: Word): Byte { w % 0x100 }

  /** Conversion of a C `int` argument to a `uint16_t` parameter: reduction modulo 2^16. */
  function ToWord(x: int): Word { x % 0x1_0000 }

  /**
   * Exchange of the two bytes of a word: `ili9341_color_swap`, which computes
   * `(v >> 8) | (v << 8)` in 16 bits, and `__builtin_bswap16`.
   */
  function Swap16(v: Word): (r: Word)
    ensures Hi(r) == Lo(v) && Lo(r) == Hi(v)
  {
    Lo(v) * 0x100 + Hi(v)
  }

  /** Swapping twice gives back the original value. */
  lemma Swap16Involution(v: Word)
    ensures Swap16(Swap16(v)) == v
  {
    var r := Swap16(Swap16(v));
    assert r == Hi(r) * 0x100 + Lo(r);
  }

  /** Bitwise OR of two bytes. */
  function BitOr(a: Byte, b: Byte): Byte { ((a as bv8) | (b as bv8)) as int }

  /** Whether every bit of `mask` is set in `m`. */
  predicate HasBits(m: Byte, mask: Byte) { (m as bv8) & (mask as bv8) == mask as bv8 }

  /** `n` copies of one word, as a buffer filled in a loop holds them. */
  function Repeat(w: Word, n: nat): (r: seq<Word>)
    ensures |r| == n
    ensures forall i :: 0 <= i < n ==> r[i] == w
  {
    seq(n, _ => w)
  }

  /** The byte stream `a, b, a, b, ...` of `n` pairs. */
  function PairRepeat(a: Byte, b: Byte, n: nat): (r: seq<Byte>)
    decreases n
  {
    if n == 0 then [] else PairRepeat(a, b, n - 1) + [a, b]
  }

  lemma {:induction false} PairRepeatAt(a: Byte, b: Byte, n: nat, j: nat)
    requires j < 2 * n
    ensures |PairRepeat(a, b, n)| == 2 * n
    ensures PairRepeat(a, b, n)[j] == if j % 2 == 0 then a else b
  {
    if j < 2 * (n - 1) {
      PairRepeatAt(a, b, n - 1, j);
    } else {
      PairRepeatLength(a, b, n - 1);
    }
  }

  lemma {:induction false} PairRepeatLength(a: Byte, b: Byte, n: nat)
    ensures |PairRepeat(a, b, n)| == 2 * n
  {
    if n > 0 {
      PairRepeatLength(a, b, n - 1);
    }
  }

  lemma {:induction false} PairRepeatSplit(a: Byte, b: Byte, m: nat, n: nat)
    ensures PairRepeat(a, b, m) + PairRepeat(a, b, n) == PairRepeat(a, b, m + n)
    decreases n
  {
    if n > 0 {
      PairRepeatSplit(a, b, m, n - 1);
      assert PairRepeat(a, b, m) + PairRepeat(a, b, n)
          == (PairRepeat(a, b, m) + PairRepeat(a, b, n - 1)) + [a, b];
    }
  }

  /** A sequence of bytes whose position-parity determines the value is a PairRepeat. */
  lemma PairRepeatFromPattern(a: Byte, b: Byte, n: nat, s: seq<Byte>)
    requires |s| == 2 * n
    requires forall j :: 0 <= j < |s| ==> s[j] == if j % 2 == 0 then a else b
    ensures s == PairRepeat(a, b, n)
  {
    PairRepeatLength(a, b, n);
    forall j | 0 <= j < |s| ensures s[j] == PairRepeat(a, b, n)[j] {
      PairRepeatAt(a, b, n, j);
    }
  }
}
