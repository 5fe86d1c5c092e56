/**
 * The progress reporter that decorates `MapBase.iterate_field`: a printer that
 * drives a generator of fractional progress values, prints a fixed-width bar
 * only when progress has advanced by at least `step` since the last bar, and
 * prints a final 100% bar when the generator is exhausted.
 *
 * Python's generator is abstracted as the sequence of values it produced and
 * the value it returns; `print` appends to a `Console`.
 */
module Progress {
  import opened Builtins

  /** The defaults of the `ProgressBar` decorator factory. */
  const DEFAULT_WIDTH := 30
  const DEFAULT_STEP := 0.05

  /** The bracketed part of a bar: `int(width * p)` '=' characters, padded with spaces to `width`. */
  function Bar(width: int, p: real): string
  {
    LJust(Repeat('=', Trunc(width as real * p)), width)
  }

  /** The text `print_progress(p)` writes (with `end=''`, so no line end). */
  function BarLine(width: int, p: real): string
  {
    "\rProgress: [" + Bar(width, p) + "] " + IntToString(Trunc(100.0 * p)) + "%"
  }

  /** `f` applied to every element of `s`, in order. */
  function MapSeq<A, B>(f: A -> B, s: seq<A>): seq<B>
    decreases |s|
  {
    if s == [] then [] else MapSeq(f, s[..|s| - 1]) + [f(s[|s| - 1])]
  }

  lemma {:induction false} MapSeqAppend<A, B>(f: A -> B, s: seq<A>, t: seq<A>)
    ensures MapSeq(f, s + t) == MapSeq(f, s) + MapSeq(f, t)
    decreases |t|
  {
    if t == [] {
      assert s + t == s;
    } else {
      var front := t[..|t| - 1];
      MapSeqAppend(f, s, front);
      assert (s + t)[..|s + t| - 1] == s + front;
    }
  }

  /** The bar lines for the progress values `ps`, in order. */
  function Lines(width: int, ps: seq<real>): seq<string>
  {
    MapSeq(p => BarLine(width, p), ps)
  }

  /** The lines of two runs of values are the lines of the first followed by those of the second. */
  lemma LinesAppend(width: int, ps: seq<real>, qs: seq<real>)
    ensures Lines(width, ps + qs) == Lines(width, ps) + Lines(width, qs)
  {
    MapSeqAppend(p => BarLine(width, p), ps, qs);
  }

  /** No value gives no line; one value gives its bar line. */
  lemma LinesSmall(width: int, p: real)
    ensures Lines(width, []) == []
    ensures Lines(width, [p]) == [BarLine(width, p)]
  {
    assert [p][..0] == [];
  }

  lemma ScaledFraction(w: real, p: real)
    requires 0.0 <= w && 0.0 <= p <= 1.0
    ensures 0.0 <= w * p <= w
  {
    assert w * (1.0 - p) >= 0.0;
  }

  /** A run of `filled` '=' padded to `width` characters. */
  lemma PaddedRun(filled: int, width: nat)
    requires 0 <= filled <= width
    ensures var b := LJust(Repeat('=', filled), width);
      && |b| == width
      && (forall k :: 0 <= k < filled ==> b[k] == '=')
      && (forall k :: filled <= k < width ==> b[k] == ' ')
  {
    var s := Repeat('=', filled);
    var b := LJust(s, width);
    assert b[..|s|] == s;
    forall k | 0 <= k < filled
      ensures b[k] == '='
    {
      assert b[k] == b[..|s|][k];
    }
  }

  /** `int(q)` for `q` in [0, n] lies in [0, n]. */
  lemma TruncWithin(q: real, n: nat)
    requires 0.0 <= q <= n as real
    ensures 0 <= Trunc(q) <= n
  {
  }

  /** For a progress value in [0, 1], `int(width * p)` lies in [0, width]. */
  lemma FilledWithin(width: nat, p: real)
    requires 0.0 <= p <= 1.0
    ensures 0 <= Trunc(width as real * p) <= width
  {
    ScaledFraction(width as real, p);
    TruncWithin(width as real * p, width);
  }

  /** For a progress value in [0, 1] the bar is exactly `width` characters: `filled` '=', then spaces. */
  lemma BarShape(width: nat, p: real, filled: int)
    requires 0.0 <= p <= 1.0
    requires filled == Trunc(width as real * p)
    ensures 0 <= filled <= width
    ensures |Bar(width, p)| == width
    ensures forall k :: 0 <= k < filled ==> Bar(width, p)[k] == '='
    ensures forall k :: filled <= k < width ==> Bar(width, p)[k] == ' '
  {
    FilledWithin(width, p);
    PaddedRun(filled, width);
    assert Bar(width, p) == LJust(Repeat('=', filled), width);
  }

  /** For a progress value in [0, 1] the percentage shown, `int(100 * p)`, lies in [0, 100]. */
  lemma PercentageRange(p: real)
    requires 0.0 <= p <= 1.0
    ensures 0 <= Trunc(100.0 * p) <= 100
  {
    ScaledFraction(100.0, p);
    TruncWithin(100.0 * p, 100);
  }

  /** The final bar: all '=' and 100%. */
  lemma FullBar(width: nat)
    ensures BarLine(width, 1.0) == "\rProgress: [" + Repeat('=', width) + "] 100%"
  {
    TruncOfInt(width);
    assert width as real * 1.0 == width as real;
    assert Trunc(100.0 * 1.0) == 100;
    assert NatToString(1) == "1";
    assert NatToString(10) == "10";
    assert NatToString(100) == "100";
  }

  /** The printer's two counters. */
  datatype Counters = Counters(current: real, last: real)

  /** `update(p)` prints exactly when `p` is at least `step` past the last printed value. */
  predicate Fires(step: real, c: Counters, p: real)
  {
    p - c.last >= step
  }

  /** The counters after `update(p)`. */
  function Advance(step: real, c: Counters, p: real): Counters
  {
    Counters(p, if Fires(step, c, p) then p else c.last)
  }

  /** The counters after `update` was called on each value of `ps` in order, starting from `c`. */
  function Run(step: real, c: Counters, ps: seq<real>): Counters
    decreases |ps|
  {
    if ps == [] then c
    else Advance(step, Run(step, c, ps[..|ps| - 1]), ps[|ps| - 1])
  }

  /** The progress values whose bars are printed by those calls, in order. */
  function Printed(step: real, c: Counters, ps: seq<real>): seq<real>
    decreases |ps|
  {
    if ps == [] then []
    else
      var prev := ps[..|ps| - 1];
      Printed(step, c, prev) + (if Fires(step, Run(step, c, prev), ps[|ps| - 1]) then [ps[|ps| - 1]] else [])
  }

  /**
   * Throttling: the first printed value is at least `step` past the starting
   * `last`, consecutive printed values are at least `step` apart, every printed
   * value is one of the inputs, and `last` ends at the last printed value.
   */
  lemma {:induction false} PrintedSpacing(step: real, c: Counters, ps: seq<real>)
    ensures var pr := Printed(step, c, ps);
      && (|pr| > 0 ==> pr[0] - c.last >= step)
      && (forall k :: 0 < k < |pr| ==> pr[k] - pr[k - 1] >= step)
      && (forall k :: 0 <= k < |pr| ==> pr[k] in ps)
      && Run(step, c, ps).last == (if |pr| == 0 then c.last else pr[|pr| - 1])
    decreases |ps|
  {
    if ps != [] {
      var prev := ps[..|ps| - 1];
      PrintedSpacing(step, c, prev);
      var pr := Printed(step, c, ps);
      var pr0 := Printed(step, c, prev);
      forall k | 0 <= k < |pr| ensures pr[k] in ps {
        if k < |pr0| {
          assert pr[k] == pr0[k];
          assert pr0[k] in prev;
        }
      }
    }
  }

  /** One more step past a value `n` steps ahead of `base` is `n + 1` steps ahead. */
  lemma StepAhead(next: real, prev: real, base: real, n: nat, step: real)
    requires next - prev >= step && prev - base >= n as real * step
    ensures next - base >= (n + 1) as real * step
  {
    assert (n + 1) as real * step == n as real * step + step;
  }

  /** Every value of `pr` is ahead of `base` by one `step` more than the value before it. */
  ghost predicate StepsAhead(pr: seq<real>, base: real, step: real)
  {
    forall k :: 0 <= k < |pr| ==> pr[k] - base >= (k + 1) as real * step
  }

  lemma StepsAheadSnoc(pr: seq<real>, x: real, base: real, step: real)
    requires StepsAhead(pr, base, step)
    requires x - base >= (|pr| + 1) as real * step
    ensures StepsAhead(pr + [x], base, step)
  {
    forall k | 0 <= k < |pr| + 1 ensures (pr + [x])[k] - base >= (k + 1) as real * step {
      if k < |pr| {
        assert (pr + [x])[k] == pr[k];
      }
    }
  }

  /**
   * A sequence whose first value is `step` past `base` and whose consecutive
   * values are `step` apart has its k-th value `(k + 1) * step` past `base`.
   */
  lemma {:induction false} SpacedLowerBound(pr: seq<real>, base: real, step: real)
    requires |pr| > 0 ==> pr[0] - base >= step
    requires forall k :: 0 < k < |pr| ==> pr[k] - pr[k - 1] >= step
    ensures StepsAhead(pr, base, step)
    decreases |pr|
  {
    if |pr| > 0 {
      var n := |pr| - 1;
      var front := pr[..n];
      assert forall k :: 0 < k < |front| ==> front[k] - front[k - 1] >= step by {
        forall k | 0 < k < |front| ensures front[k] - front[k - 1] >= step {
          assert front[k] == pr[k] && front[k - 1] == pr[k - 1];
        }
      }
      SpacedLowerBound(front, base, step);
      if n > 0 {
        assert front[n - 1] - base >= n as real * step;
        StepAhead(pr[n], front[n - 1], base, n, step);
      } else {
        assert (n + 1) as real * step == step;
      }
      StepsAheadSnoc(front, pr[n], base, step);
      assert front + [pr[n]] == pr;
    }
  }

  /** The k-th printed value (from 0) is at least `(k + 1) * step` past the starting `last`. */
  lemma PrintedLowerBound(step: real, c: Counters, ps: seq<real>)
    ensures StepsAhead(Printed(step, c, ps), c.last, step)
  {
    PrintedSpacing(step, c, ps);
    SpacedLowerBound(Printed(step, c, ps), c.last, step);
  }

  predicate NonDecreasing(ps: seq<real>)
  {
    forall i, j :: 0 <= i < j < |ps| ==> ps[i] <= ps[j]
  }

  /**
   * `current` always holds the latest value, and for a non-decreasing input that
   * does not start below `current`, `last` never gets ahead of `current`.
   */
  lemma {:induction false} LastNotAhead(step: real, c: Counters, ps: seq<real>)
    requires c.last <= c.current
    requires NonDecreasing(ps)
    requires ps != [] ==> c.current <= ps[0]
    ensures ps != [] ==> Run(step, c, ps).current == ps[|ps| - 1]
    ensures Run(step, c, ps).last <= Run(step, c, ps).current
    decreases |ps|
  {
    if ps != [] {
      var prev := ps[..|ps| - 1];
      LastNotAhead(step, c, prev);
      if prev != [] {
        assert prev[|prev| - 1] == ps[|ps| - 2];
      }
    }
  }

  /** One more value: the counters advance by it, and its bar line is added exactly when it fires. */
  lemma FeedStep(width: int, step: real, c: Counters, ps: seq<real>, i: nat)
    requires i < |ps|
    ensures Run(step, c, ps[..i + 1]) == Advance(step, Run(step, c, ps[..i]), ps[i])
    ensures Lines(width, Printed(step, c, ps[..i + 1]))
            == Lines(width, Printed(step, c, ps[..i]))
               + (if Fires(step, Run(step, c, ps[..i]), ps[i]) then [BarLine(width, ps[i])] else [])
  {
    var before := ps[..i];
    assert ps[..i + 1][..i] == before;
    var added := if Fires(step, Run(step, c, before), ps[i]) then [ps[i]] else [];
    assert Printed(step, c, ps[..i + 1]) == Printed(step, c, before) + added;
    LinesAppend(width, Printed(step, c, before), added);
    LinesSmall(width, ps[i]);
  }

  lemma AppendAssoc<T>(a: seq<T>, b: seq<T>, c: seq<T>)
    ensures (a + b) + c == a + (b + c)
  {
  }

  /** `ProgressBarPrinter`: the state kept between calls of the decorated function. */
  class ProgressBarPrinter {
    const width: int
    const step: real
    var currentProgress: real
    var lastProgress: real

    function State(): Counters
      reads this
    {
      Counters(currentProgress, lastProgress)
    }

    constructor (width: int, step: real)
      ensures this.width == width && this.step == step
      ensures State() == Counters(0.0, 0.0)
    {
      this.width := width;
      this.step := step;
      currentProgress := 0.0;
      lastProgress := 0.0;
    }

    method PrintProgress(p: real, out: Console)
      modifies out
      ensures out.text == old(out.text) + [BarLine(width, p)]
    {
      var percentage := Trunc(100.0 * p);
      var barWidth := Trunc(width as real * p);
      out.Write("\rProgress: [" + LJust(Repeat('=', barWidth), width) + "] " + IntToString(percentage) + "%");
    }

    /** Records `p`; prints its bar, and makes it the last printed value, iff it is `step` past the last one. */
    method Update(p: real, out: Console)
      modifies this`currentProgress, this`lastProgress, out
      ensures State() == Advance(step, old(State()), p)
      ensures currentProgress == p
      ensures Fires(step, old(State()), p) ==> lastProgress == p && out.text == old(out.text) + [BarLine(width, p)]
      ensures !Fires(step, old(State()), p) ==> lastProgress == old(lastProgress) && out.text == old(out.text)
    {
      currentProgress := p;
      if currentProgress - lastProgress >= step {
        lastProgress := currentProgress;
        PrintProgress(currentProgress, out);
      }
    }

    /** The `while True` loop of `__call__`: every produced value goes to `Update`, in order. */
    method Feed(produced: seq<real>, out: Console)
      modifies this`currentProgress, this`lastProgress, out
      ensures State() == Run(step, old(State()), produced)
      ensures out.text == old(out.text) + Lines(width, Printed(step, old(State()), produced))
    {
      ghost var start := State();
      ghost var text0 := out.text;
      var i := 0;
      while i < |produced|
        invariant 0 <= i <= |produced|
        invariant State() == Run(step, start, produced[..i])
        invariant out.text == text0 + Lines(width, Printed(step, start, produced[..i]))
      {
        FeedStep(width, step, start, produced, i);
        ghost var shown := Lines(width, Printed(step, start, produced[..i]));
        ghost var line := if Fires(step, State(), produced[i]) then [BarLine(width, produced[i])] else [];
        Update(produced[i], out);
        assert out.text == (text0 + shown) + line;
        AppendAssoc(text0, shown, line);
        i := i + 1;
      }
      assert produced[..i] == produced;
    }

    /**
     * `__call__`: passes every value the generator produced to `Update`, in order;
     * once it is exhausted resets both counters, prints the 100% bar and then
     * `print('\n')` (a newline plus print's own line end), and returns the
     * generator's return value.
     */
    method Call<R>(produced: seq<real>, result: R, out: Console) returns (r: R)
      modifies this`currentProgress, this`lastProgress, out
      ensures r == result
      ensures State() == Counters(0.0, 0.0)
      ensures out.text == old(out.text) + Lines(width, Printed(step, old(State()), produced))
                          + [BarLine(width, 1.0), "\n\n"]
    {
      Feed(produced, out);
      currentProgress := 0.0;
      lastProgress := 0.0;
      PrintProgress(1.0, out);
      out.Write("\n\n");
      r := result;
    }
  }

  /** `ProgressBar(width, step)` applied to a function: a fresh printer holding both settings unchanged. */
  method ProgressBar(width: int := DEFAULT_WIDTH, step: real := DEFAULT_STEP) returns (printer: ProgressBarPrinter)
    ensures fresh(printer)
    ensures printer.width == width && printer.step == step
    ensures printer.State() == Counters(0.0, 0.0)
  {
    printer := new ProgressBarPrinter(width, step);
  }
}
