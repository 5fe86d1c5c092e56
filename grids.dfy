/**
 * The NumPy arrays the map works on, as rows of reals: a parameter grid built
 * by `np.meshgrid` and each state variable are `rows` x `cols` 2-D arrays.
 * Column extraction `g[:, c]`, flattening, and `np.min` / `np.max`.
 */
module Grids {
  import opened Wrappers
  import opened Builtins

  type Grid = seq<seq<real>>

  /** `g.shape == (rows, cols)`. */
  predicate Shaped(g: Grid, rows: nat, cols: nat)
  {
    |g| == rows && forall r :: 0 <= r < |g| ==> |g[r]| == cols
  }

  /** `g[:, c].flatten()` for a column `c` inside every row: the c-th entry of every row, top to bottom. */
  function Column(g: Grid, c: nat): seq<real>
    requires forall r :: 0 <= r < |g| ==> c < |g[r]|
  {
    seq(|g|, r requires 0 <= r < |g| => g[r][c])
  }

  /**
   * `g[:, ind].flatten()` for any integer `ind`: every row is indexed with
   * NumPy's negative-index rule, and an index outside a row raises IndexError
   * (None).
   */
  function ColumnAt(g: Grid, ind: int): Option<seq<real>>
  {
    if forall r :: 0 <= r < |g| ==> -(|g[r]| as int) <= ind < |g[r]| then
      Some(seq(|g|, r requires 0 <= r < |g| => g[r][NormalizeIndex(ind, |g[r]|).value]))
    else None
  }

  /**
   * On a `rows` x `cols` array with at least one row, `g[:, ind]` exists
   * exactly when `ind` lies in `[-cols, cols)`, and it is the column NumPy's
   * rule selects.
   */
  lemma ColumnAtShaped(g: Grid, rows: nat, cols: nat, ind: int)
    requires Shaped(g, rows, cols) && rows > 0
    ensures ColumnAt(g, ind).Some? <==> NormalizeIndex(ind, cols).Some?
    ensures ColumnAt(g, ind).Some? ==> ColumnAt(g, ind).value == Column(g, NormalizeIndex(ind, cols).value)
  {
    if NormalizeIndex(ind, cols).Some? {
      var c := NormalizeIndex(ind, cols).value;
      assert ColumnAt(g, ind).Some?;
      assert ColumnAt(g, ind).value == Column(g, c);
    } else {
      assert |g[0]| == cols;
    }
  }

  /** `g.flatten()`: the rows, concatenated in order. */
  function Flatten(g: Grid): seq<real>
  {
    if g == [] then [] else g[0] + Flatten(g[1..])
  }

  lemma {:induction false} InFlatten(g: Grid, r: nat, c: nat)
    requires r < |g| && c < |g[r]|
    ensures g[r][c] in Flatten(g)
    decreases r
  {
    if r == 0 {
      assert Flatten(g)[c] == g[0][c];
    } else {
      InFlatten(g[1..], r - 1, c);
      assert g[r] == g[1..][r - 1];
    }
  }

  lemma {:induction false} FlattenNonEmpty(g: Grid)
    requires |g| >= 1 && |g[0]| >= 1
    ensures |Flatten(g)| >= 1
  {
  }

  /** `np.min(s)` for a non-empty array: one of its values, and no larger than any. */
  function MinOf(s: seq<real>): (m: real)
    requires |s| > 0
    ensures m in s
    ensures forall k :: 0 <= k < |s| ==> m <= s[k]
  {
    if |s| == 1 then s[0]
    else
      var rest := MinOf(s[1..]);
      if s[0] <= rest then s[0] else rest
  }

  /** `np.max(s)` for a non-empty array: one of its values, and no smaller than any. */
  function MaxOf(s: seq<real>): (m: real)
    requires |s| > 0
    ensures m in s
    ensures forall k :: 0 <= k < |s| ==> s[k] <= m
  {
    if |s| == 1 then s[0]
    else
      var rest := MaxOf(s[1..]);
      if s[0] >= rest then s[0] else rest
  }
}
