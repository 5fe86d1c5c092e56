/**
 * The pieces of Python and NumPy behaviour the bifurcation code relies on:
 * the exceptions it can raise, `int()` applied to a float, NumPy's integer
 * indexing of one axis, string repetition and padding, `str()` of an int,
 * and standard output.
 */
module Builtins {
  import opened Wrappers

  /** The exceptions raised by the modelled code. */
  datatype Error =
    | TypeError(message: string)
    | ValueError(message: string)
    | IndexError
      /** `int()` of an infinite or undefined float (a division by zero in NumPy) */
    | ConversionError

  /** Python's `int(x)` for a float `x`: truncation toward zero. */
  function Trunc(x: real): (r: int)
    ensures 0.0 <= x ==> 0 <= r && r as real <= x < r as real + 1.0
    ensures x < 0.0 ==> r <= 0 && r as real - 1.0 < x <= r as real
  {
    if x >= 0.0 then x.Floor else -((-x).Floor)
  }

  lemma TruncMonotone(a: real, b: real)
    requires a <= b
    ensures Trunc(a) <= Trunc(b)
  {
  }

  lemma TruncOfInt(k: int)
    ensures Trunc(k as real) == k
  {
  }

  lemma MulNonNegative(x: real, y: real)
    requires 0.0 <= x && 0.0 <= y
    ensures 0.0 <= x * y
  {
  }

  lemma DivCancel(x: real, d: real)
    requires d != 0.0
    ensures x * d / d == x
  {
  }

  lemma DivMonotone(a: real, b: real, d: real)
    requires a <= b && d > 0.0
    ensures a / d <= b / d
  {
    assert b / d - a / d == (b - a) / d;
    MulNonNegative(b - a, 1.0 / d);
    assert (b - a) / d == (b - a) * (1.0 / d);
  }

  lemma FractionBelowOne(a: real, b: real)
    requires 0.0 <= a < b
    ensures 0.0 <= a / b < 1.0
  {
    var t := a / b;
    assert t * b == a;
    if t >= 1.0 {
      MulNonNegative(t - 1.0, b);
    }
  }

  lemma ScaleBelow(size: nat, t: real)
    requires size > 0 && 0.0 <= t < 1.0
    ensures 0.0 <= size as real * t < size as real
  {
    assert size as real * (1.0 - t) > 0.0;
  }

  /**
   * NumPy's basic indexing of an axis of length `size` by the integer `ind`:
   * negative indices count from the end, anything else outside the axis is an
   * IndexError (None here).
   */
  function NormalizeIndex(ind: int, size: nat): (r: Option<nat>)
    ensures r.Some? <==> -(size as int) <= ind < size
    ensures r.Some? ==> r.value < size && (r.value - ind) % size == 0
    ensures 0 <= ind < size ==> r == Some(ind)
  {
    if 0 <= ind < size then Some(ind)
    else if -(size as int) <= ind < 0 then Some(ind + size)
    else None
  }

  /** `c * n` for a one-character string `c`: `n` copies, none when `n <= 0`. */
  function Repeat(c: char, n: int): (r: string)
    ensures |r| == if n > 0 then n else 0
    ensures forall k :: 0 <= k < |r| ==> r[k] == c
    decreases n
  {
    if n <= 0 then "" else Repeat(c, n - 1) + [c]
  }

  /** `s.ljust(width)`: pads `s` with spaces on the right to `width` characters; never truncates. */
  function LJust(s: string, width: int): (r: string)
    ensures |r| == if |s| < width then width else |s|
    ensures r[..|s|] == s
    ensures forall k :: |s| <= k < |r| ==> r[k] == ' '
  {
    if |s| < width then s + Repeat(' ', width - |s|) else s
  }

  function DigitChar(d: nat): (c: char)
    requires d < 10
    ensures '0' <= c <= '9' && c as int - '0' as int == d
  {
    ('0' as int + d) as char
  }

  /** `str(n)` for a non-negative int: its decimal digits, without leading zeros. */
  function NatToString(n: nat): (r: string)
    ensures |r| >= 1
    ensures forall k :: 0 <= k < |r| ==> '0' <= r[k] <= '9'
    ensures r[0] == '0' <==> n == 0
    ensures n == 0 ==> |r| == 1
  {
    if n < 10 then [DigitChar(n)] else NatToString(n / 10) + [DigitChar(n % 10)]
  }

  /** `str(n)` for any int. */
  function IntToString(n: int): string
  {
    if n < 0 then "-" + NatToString(-n) else NatToString(n)
  }

  /** The number a string of decimal digits denotes (the inverse of `NatToString`). */
  function DecimalValue(s: string): int
  {
    if s == [] then 0 else DecimalValue(s[..|s| - 1]) * 10 + (s[|s| - 1] as int - '0' as int)
  }

  lemma {:induction false} NatToStringRoundTrip(n: nat)
    ensures DecimalValue(NatToString(n)) == n
  {
    var s := NatToString(n);
    if n < 10 {
      assert s[..|s| - 1] == [];
    } else {
      NatToStringRoundTrip(n / 10);
      assert s[..|s| - 1] == NatToString(n / 10);
    }
  }

  /** Standard output: the strings written to it, in order, each with its line ending if any. */
  class Console {
    var text: seq<string>

    constructor ()
      ensures text == []
    {
      text := [];
    }

    method Write(s: string)
      modifies this
      ensures text == old(text) + [s]
    {
      text := text + [s];
    }
  }
}
