/**
 * The two formulas that turn a control position into a column of the
 * parameter grid in `_plot3D`: the slider's (core/map_base.py:129) and the
 * animation frame's (core/map_base.py:140). Python evaluates both in floating
 * point and truncates with `int()`; here the arithmetic is exact.
 */
module SliceIndex {
  import opened Wrappers
  import opened Builtins

  /** The number of frames `FuncAnimation` is given for one sweep. */
  const FRAMES := 100

  /**
   * `int(size * (p - lo) / (hi - lo))`. A degenerate range `hi == lo` makes
   * NumPy divide by zero, and `int()` of the result raises (None here). The
   * result is not clamped to the grid.
   */
  function SliderIndex(size: int, p: real, lo: real, hi: real): Option<int>
  {
    if hi == lo then None else Some(Trunc(size as real * (p - lo) / (hi - lo)))
  }

  /** `int(size * frame / 100)`. */
  function AnimIndex(size: int, frame: int): int
  {
    Trunc(size as real * frame as real / FRAMES as real)
  }

  /** A slider position in [lo, hi) selects a column in [0, size); the minimum selects column 0. */
  lemma SliderIndexInRange(size: nat, p: real, lo: real, hi: real)
    requires size > 0 && lo < hi && lo <= p < hi
    ensures SliderIndex(size, p, lo, hi).Some?
    ensures 0 <= SliderIndex(size, p, lo, hi).value < size
    ensures p == lo ==> SliderIndex(size, p, lo, hi).value == 0
  {
    var t := (p - lo) / (hi - lo);
    FractionBelowOne(p - lo, hi - lo);
    ScaleBelow(size, t);
    assert size as real * (p - lo) / (hi - lo) == size as real * t;
  }

  /** The slider's maximum is mapped to `size`, one past the last column: the index is not clamped. */
  lemma SliderIndexAtMaximum(size: nat, lo: real, hi: real)
    requires lo != hi
    ensures SliderIndex(size, hi, lo, hi) == Some(size)
  {
    var q := size as real * (hi - lo) / (hi - lo);
    DivCancel(size as real, hi - lo);
    assert q == size as real;
    TruncOfInt(size);
    assert SliderIndex(size, hi, lo, hi) == Some(Trunc(q));
  }

  /** On an increasing range, moving the slider up never moves the column down. */
  lemma SliderIndexMonotone(size: nat, p: real, q: real, lo: real, hi: real)
    requires lo < hi && p <= q
    ensures SliderIndex(size, p, lo, hi).Some? && SliderIndex(size, q, lo, hi).Some?
    ensures SliderIndex(size, p, lo, hi).value <= SliderIndex(size, q, lo, hi).value
  {
    var d := hi - lo;
    var a, b := size as real * (p - lo), size as real * (q - lo);
    assert b - a == size as real * (q - p);
    MulNonNegative(size as real, q - p);
    DivMonotone(a, b, d);
    TruncMonotone(a / d, b / d);
  }

  /** Every frame 0..99 of the sweep selects a column in [0, size); frame 0 selects column 0. */
  lemma AnimIndexInRange(size: nat, frame: int)
    requires size > 0 && 0 <= frame < FRAMES
    ensures 0 <= AnimIndex(size, frame) < size
    ensures frame == 0 ==> AnimIndex(size, frame) == 0
  {
    var t := frame as real / FRAMES as real;
    FractionBelowOne(frame as real, FRAMES as real);
    ScaleBelow(size, t);
    assert size as real * frame as real / FRAMES as real == size as real * t;
  }

  /** Later frames never select earlier columns. */
  lemma AnimIndexMonotone(size: nat, f: int, g: int)
    requires f <= g
    ensures AnimIndex(size, f) <= AnimIndex(size, g)
  {
    assert size as real * g as real - size as real * f as real == size as real * (g - f) as real;
    assert size as real * (g - f) as real >= 0.0;
    TruncMonotone(size as real * f as real / FRAMES as real, size as real * g as real / FRAMES as real);
  }
}
