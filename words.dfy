/**
 * Machine words of the x86-64 target the example library is compiled for:
 * unsigned 64-bit words (the elements of a BigUint64Array and the width of an
 * address), the 32-bit `int` stored in the low half of a word (little-endian),
 * 64-bit wrapping address arithmetic, and the base-16 rendering that
 * `Number.prototype.toString(16)` gives an address.
 */
module Words {

  const WordModulus: int := 0x1_0000_0000_0000_0000
  const WordBytes: nat := 8
  const HalfModulus: int := 0x1_0000_0000

  /** An unsigned 64-bit word; also an address. */
  newtype Word = x: int | 0 <= x < 0x1_0000_0000_0000_0000

  /** A C++ `int` (and a Deno "i32" parameter). */
  newtype Int32 = x: int | -0x8000_0000 <= x < 0x8000_0000

  /**
   * `a + bytes` computed in 64 bits. This is both what the foreign code does
   * when it indexes a table and what storing `BigInt(a) + BigInt(bytes)` into a
   * BigUint64Array element does (the store reduces modulo 2^64).
   */
  function Offset(a: Word, bytes: nat): (r: Word)
    requires bytes < WordModulus
    ensures r as int == (a as int + bytes) % WordModulus
  {
    if a as int + bytes < WordModulus then (a as int + bytes) as Word
    else (a as int + bytes - WordModulus) as Word
  }

  /** The address of word `i` of a buffer that starts at `base`. */
  function WordAddress(base: Word, i: nat): Word
    requires WordBytes * i < WordModulus
  {
    Offset(base, WordBytes * i)
  }

  lemma OffsetAdd(a: Word, x: nat, y: nat)
    requires x + y < WordModulus
    ensures Offset(Offset(a, x), y) == Offset(a, x + y)
  {
  }

  /** Distinct offsets below 2^64 name distinct addresses. */
  lemma OffsetDistinct(a: Word, x: nat, y: nat)
    requires x < WordModulus && y < WordModulus && x != y
    ensures Offset(a, x) != Offset(a, y)
  {
  }

  /** Word i of a table whose address point is 16 bytes in is slot i - 2 of that address point. */
  lemma WordAddressShift(base: Word, shift: nat, i: nat)
    requires WordBytes * (shift + i) < WordModulus
    ensures WordAddress(Offset(base, WordBytes * shift), i) == WordAddress(base, shift + i)
  {
    OffsetAdd(base, WordBytes * shift, WordBytes * i);
  }

  // ---------------------------------------------------------------- int in a word

  /**
   * The word after a C++ `int` member is stored into the four low-order bytes
   * of word `w` (x86-64 is little-endian); the four upper bytes are padding and
   * keep their value.
   */
  function StoreInt32(w: Word, x: Int32): (r: Word)
    ensures r as int / HalfModulus == w as int / HalfModulus
    ensures LoadInt32(r) == x
  {
    var high := w as int / HalfModulus;
    var low := x as int % HalfModulus;
    assert 0 <= high < HalfModulus;
    assert (high * HalfModulus + low) / HalfModulus == high;
    assert (high * HalfModulus + low) % HalfModulus == low;
    (high * HalfModulus + low) as Word
  }

  /** The `int` held, as two's complement, in the four low-order bytes of `w`. */
  function LoadInt32(w: Word): Int32 {
    var low := w as int % HalfModulus;
    if low < 0x8000_0000 then low as Int32 else (low - HalfModulus) as Int32
  }

  /** An `int` stored into a zeroed word reads back as that word alone. */
  lemma StoreNonNegativeInZero(x: Int32)
    requires 0 <= x
    ensures StoreInt32(0, x) == x as int as Word
  {
  }

  // ---------------------------------------------------------------- base 16

  /** The lower-case digit `Number.prototype.toString(16)` writes for `d`. */
  function HexDigit(d: nat): char
    requires d < 16
  {
    if d < 10 then ('0' as int + d) as char else ('a' as int + d - 10) as char
  }

  predicate IsHexDigit(c: char) {
    '0' <= c <= '9' || 'a' <= c <= 'f'
  }

  function DigitValue(c: char): (d: nat)
    requires IsHexDigit(c)
    ensures d < 16 && HexDigit(d) == c
  {
    if c <= '9' then c as int - '0' as int else c as int - 'a' as int + 10
  }

  /** `n.toString(16)`: the shortest lower-case base-16 numeral for `n`. */
  function ToHex(n: nat): string
    decreases n
  {
    if n < 16 then [HexDigit(n)] else ToHex(n / 16) + [HexDigit(n % 16)]
  }

  predicate IsHexNumeral(s: string) {
    forall i :: 0 <= i < |s| ==> IsHexDigit(s[i])
  }

  /** The value of a base-16 numeral. */
  function FromHex(s: string): nat
    requires IsHexNumeral(s)
  {
    if s == [] then 0 else FromHex(s[..|s| - 1]) * 16 + DigitValue(s[|s| - 1])
  }

  /**
   * The base-16 text of an address reads back as that address, is never
   * empty, and has a leading zero only when it is "0".
   */
  lemma {:induction false} HexRoundTrip(n: nat)
    ensures 1 <= |ToHex(n)| && IsHexNumeral(ToHex(n))
    ensures FromHex(ToHex(n)) == n
    ensures ToHex(n)[0] == '0' <==> n == 0
    decreases n
  {
    if n < 16 {
      assert ToHex(n) == [HexDigit(n)];
      assert DigitValue(HexDigit(n)) == n;
      assert ToHex(n)[..0] == [];
    } else {
      HexRoundTrip(n / 16);
      var s := ToHex(n);
      assert s == ToHex(n / 16) + [HexDigit(n % 16)];
      assert s[..|s| - 1] == ToHex(n / 16);
      assert DigitValue(HexDigit(n % 16)) == n % 16;
    }
  }
}
