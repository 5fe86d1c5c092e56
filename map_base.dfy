/**
 * `MapBase`, the base class of every map: its configuration setters, its
 * state, and the iteration driver `iterate_field`, which applies the map
 * `iterations` times and keeps only the last `last_num` states.
 *
 * The concrete map (`iterate`) is a parameter: a total function from the
 * parameters and a state tuple to the next state tuple.
 */
module Maps {
  import opened Wrappers
  import opened Builtins
  import opened Grids
  import opened Progress
  import AnimationControl

  /** A state tuple: one array per state variable, in the variables' declared order. */
  type State = seq<Grid>

  /** A Python dict from names to arrays, as its entries in insertion order. */
  type Entries = seq<(string, Grid)>

  /** What is assigned to `params` or `vars`: a dict, or anything else. */
  datatype PyValue = PyDict(entries: Entries) | NonDict

  /** The plot strategy `_plotter` is bound to. */
  datatype Plotter = Plot2D | Plot3D

  const DEFAULT_LAST_NUM := 100
  /** The settings of the `ProgressBar` decorating `iterate_field`. */
  const ITERATION_BAR_WIDTH := 32
  const ITERATION_BAR_STEP := 0.032347

  const PARAMS_TYPE_MESSAGE := "Params can only be a dict!"
  const PARAMS_ARITY_MESSAGE := "Having more than 2 parameters is not supported!"
  const VARS_TYPE_MESSAGE := "Vars can only be a dict!"

  /** `list(d.values())`. */
  function Values(d: Entries): State
  {
    seq(|d|, k requires 0 <= k < |d| => d[k].1)
  }

  /** The state after `k` applications of the map to `x`. */
  function Apply(iterate: (Entries, State) -> State, params: Entries, x: State, k: nat): State
  {
    if k == 0 then x else iterate(params, Apply(iterate, params, x, k - 1))
  }

  /** What `last_iters` holds after the first `i` of `n` loop steps: the states of every step `j >= n - lastNum`. */
  function WindowAfter(iterate: (Entries, State) -> State, params: Entries, x0: State,
                       n: int, lastNum: int, i: nat): seq<State>
  {
    if i == 0 then []
    else
      WindowAfter(iterate, params, x0, n, lastNum, i - 1)
      + (if i - 1 >= n - lastNum then [Apply(iterate, params, x0, i)] else [])
  }

  /** `last_iters` after `iterate_field(n)`; `range(n)` is empty for `n <= 0`. */
  function Window(iterate: (Entries, State) -> State, params: Entries, x0: State, n: int, lastNum: int): seq<State>
  {
    WindowAfter(iterate, params, x0, n, lastNum, if n > 0 then n else 0)
  }

  /** `min(lastNum, n)`, and nothing when either is not positive. */
  function WindowLength(n: int, lastNum: int): nat
  {
    if n <= 0 || lastNum <= 0 then 0 else if lastNum < n then lastNum else n
  }

  lemma {:induction false} WindowAfterContents(iterate: (Entries, State) -> State, params: Entries, x0: State,
                                               n: int, lastNum: int, i: nat)
    ensures var first := if n - lastNum > 0 then n - lastNum else 0;
      var w := WindowAfter(iterate, params, x0, n, lastNum, i);
      && |w| == (if i > first then i - first else 0)
      && forall k :: 0 <= k < |w| ==> w[k] == Apply(iterate, params, x0, first + k + 1)
  {
    if i > 0 {
      WindowAfterContents(iterate, params, x0, n, lastNum, i - 1);
    }
  }

  /**
   * The window has `min(lastNum, n)` states in chronological order: entry k is
   * the state after `n - |window| + k + 1` steps, so the last one is the state
   * after exactly `n` steps.
   */
  lemma WindowContents(iterate: (Entries, State) -> State, params: Entries, x0: State, n: int, lastNum: int)
    ensures var w := Window(iterate, params, x0, n, lastNum);
      && |w| == WindowLength(n, lastNum)
      && (forall k :: 0 <= k < |w| ==> w[k] == Apply(iterate, params, x0, n - |w| + k + 1))
      && (|w| > 0 ==> w[|w| - 1] == Apply(iterate, params, x0, n))
  {
    WindowAfterContents(iterate, params, x0, n, lastNum, if n > 0 then n else 0);
  }

  /** The progress values `iterate_field(n)` yields: `i / n` for every step `i` of `range(n)`. */
  function Fractions(n: int): seq<real>
  {
    if n <= 0 then [] else seq(n, i requires 0 <= i < n => i as real / n as real)
  }

  /** The yielded progress values start at 0, strictly increase, and stay below 1. */
  lemma FractionsIncreasing(n: int)
    ensures var f := Fractions(n);
      && |f| == (if n > 0 then n else 0)
      && (|f| > 0 ==> f[0] == 0.0)
      && (forall i, j :: 0 <= i < j < |f| ==> f[i] < f[j])
      && (forall i :: 0 <= i < |f| ==> 0.0 <= f[i] < 1.0)
  {
    var f := Fractions(n);
    forall i, j | 0 <= i < j < |f| ensures f[i] < f[j] {
      assert f[j] - f[i] == (j - i) as real / n as real;
    }
    forall i | 0 <= i < |f| ensures 0.0 <= f[i] < 1.0 {
      FractionBelowOne(i as real, n as real);
    }
  }

  /**
   * Starting from zeroed counters, the iteration bar is redrawn at most 30
   * times before the final one: each redraw is 0.032347 past the previous, and
   * every progress value is below 1.
   */
  lemma IterationBarRedraws(n: int)
    ensures |Printed(ITERATION_BAR_STEP, Counters(0.0, 0.0), Fractions(n))| <= 30
  {
    var c := Counters(0.0, 0.0);
    var pr := Printed(ITERATION_BAR_STEP, c, Fractions(n));
    if |pr| > 0 {
      PrintedSpacing(ITERATION_BAR_STEP, c, Fractions(n));
      PrintedLowerBound(ITERATION_BAR_STEP, c, Fractions(n));
      FractionsIncreasing(n);
      var last := pr[|pr| - 1];
      assert last in Fractions(n);
      assert last < 1.0;
      assert |pr| as real * ITERATION_BAR_STEP <= last;
    }
  }

  class MapBase {
    /** The concrete map's `iterate`, which reads the parameters and the current state tuple. */
    const iterate: (Entries, State) -> State
    var name: string
    var lastNum: int
    var lastIters: seq<State>
    var params: Entries
    var vars: Entries
    /** `_plotter`; None while the attribute has never been assigned. */
    var plotter: Option<Plotter>
    /** `self.anim`: None until the 3-D view's Start button constructs the animation. */
    var anim: Option<AnimationControl.Animation>
    /** `self.cid`: the id of the slider callback connected last. */
    var cid: Option<nat>

    /** What the `params` setter keeps: at most 2 parameters, and 1 or 2 of them have selected their plotter. */
    ghost predicate Configured()
      reads this
    {
      && |params| <= 2
      && (|params| == 1 ==> plotter == Some(Plot2D))
      && (|params| == 2 ==> plotter == Some(Plot3D))
    }

    /** `__init__`: assigns `{}` through both setters, so `_plotter` stays unassigned. */
    constructor (iterate: (Entries, State) -> State, lastNum: int := DEFAULT_LAST_NUM)
      ensures this.iterate == iterate && this.lastNum == lastNum
      ensures name == "Map" && lastIters == []
      ensures params == [] && vars == [] && plotter == None
      ensures anim == None && cid == None
      ensures Configured()
    {
      this.iterate := iterate;
      name := "Map";
      this.lastNum := lastNum;
      lastIters := [];
      params := [];
      vars := [];
      plotter := None;
      anim := None;
      cid := None;
      new;
      var _ := SetParams(PyDict([]));
      var _ := SetVars(PyDict([]));
    }

    /**
     * The `params` setter. A non-dict raises TypeError and more than 2 entries
     * ValueError, both leaving everything as it was; otherwise the dict is
     * stored and 1 entry selects the 2-D plot, 2 the 3-D plot, and 0 leaves
     * `_plotter` as it was.
     */
    method SetParams(value: PyValue) returns (res: Outcome<Error>)
      modifies this`params, this`plotter
      ensures value.NonDict? ==> res == Fail(TypeError(PARAMS_TYPE_MESSAGE))
      ensures value.PyDict? && |value.entries| > 2 ==> res == Fail(ValueError(PARAMS_ARITY_MESSAGE))
      ensures res.Fail? ==> params == old(params) && plotter == old(plotter)
      ensures value.PyDict? && |value.entries| <= 2 ==>
        && res == Pass
        && params == value.entries
        && plotter == (if |value.entries| == 1 then Some(Plot2D)
                       else if |value.entries| == 2 then Some(Plot3D)
                       else old(plotter))
      ensures res.Pass? ==> Configured()
      ensures old(Configured()) ==> Configured()
    {
      if value.NonDict? {
        return Fail(TypeError(PARAMS_TYPE_MESSAGE));
      }
      if |value.entries| > 2 {
        return Fail(ValueError(PARAMS_ARITY_MESSAGE));
      }
      if |value.entries| == 1 {
        plotter := Some(Plot2D);
      } else if |value.entries| == 2 {
        plotter := Some(Plot3D);
      }
      params := value.entries;
      res := Pass;
    }

    /** The `vars` setter: a non-dict raises TypeError and changes nothing; a dict is stored. */
    method SetVars(value: PyValue) returns (res: Outcome<Error>)
      modifies this`vars
      ensures value.NonDict? ==> res == Fail(TypeError(VARS_TYPE_MESSAGE)) && vars == old(vars)
      ensures value.PyDict? ==> res == Pass && vars == value.entries
    {
      if value.NonDict? {
        return Fail(TypeError(VARS_TYPE_MESSAGE));
      }
      vars := value.entries;
      res := Pass;
    }

    /**
     * The body of `iterate_field` run to exhaustion: discards `last_iters`,
     * prints the banner, applies the map `iterations` times to the variables'
     * values and keeps the states of the last `last_num` steps. Returns the
     * progress values it yields, in order. `vars`, `params` and `last_num`
     * are only read.
     */
    method IterateField(iterations: int, out: Console) returns (progress: seq<real>)
      modifies this`lastIters, out
      ensures lastIters == Window(iterate, params, Values(vars), iterations, lastNum)
      ensures progress == Fractions(iterations)
      ensures out.text == old(out.text) + ["Iterating " + name + "...\n"]
    {
      lastIters := [];
      out.Write("Iterating " + name + "...\n");
      var x := Values(vars);
      progress := [];
      var i := 0;
      while i < iterations
        invariant 0 <= i && (i <= iterations || i == 0)
        invariant x == Apply(iterate, params, Values(vars), i)
        invariant lastIters == WindowAfter(iterate, params, Values(vars), iterations, lastNum, i)
        invariant progress == Fractions(iterations)[..i]
        invariant out.text == old(out.text) + ["Iterating " + name + "...\n"]
      {
        x := iterate(params, x);
        if i >= iterations - lastNum {
          lastIters := lastIters + [x];
        }
        progress := progress + [i as real / iterations as real];
        i := i + 1;
      }
      assert progress == Fractions(iterations)[..i];
    }

    /**
     * `iterate_field` as its decorator runs it: the banner, the throttled bars
     * for the yielded progress values, the 100% bar and a blank line; the
     * printer's counters end at 0 and `last_iters` holds the window.
     */
    method IterateFieldWithProgress(printer: ProgressBarPrinter, iterations: int, out: Console)
      requires printer.width == ITERATION_BAR_WIDTH && printer.step == ITERATION_BAR_STEP
      modifies this`lastIters, printer, out
      ensures lastIters == Window(iterate, params, Values(vars), iterations, lastNum)
      ensures printer.State() == Counters(0.0, 0.0)
      ensures out.text == old(out.text) + ["Iterating " + name + "...\n"]
                          + Lines(ITERATION_BAR_WIDTH, Printed(ITERATION_BAR_STEP, old(printer.State()), Fractions(iterations)))
                          + [BarLine(ITERATION_BAR_WIDTH, 1.0), "\n\n"]
    {
      var progress := IterateField(iterations, out);
      var _ := printer.Call(progress, (), out);
    }
  }

  /** Running `iterate_field` twice with the same count leaves the same window: nothing it reads is written. */
  method RerunIsIdentical(m: MapBase, iterations: int, out: Console) returns (first: seq<State>, second: seq<State>)
    modifies m`lastIters, out
    ensures first == second
  {
    var _ := m.IterateField(iterations, out);
    first := m.lastIters;
    var _ := m.IterateField(iterations, out);
    second := m.lastIters;
  }
}
