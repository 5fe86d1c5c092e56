/**
 * The interactive part of `MapBase._plot3D`: the state its closures share
 * (the two parameter grids, one plot artifact per variable and snapshot of
 * the window at creation, the slider), the z-limits of each variable's axis,
 * and the closures `update`, `anim_plot`, `clear_plot`, `start_anim` and
 * `stop_anim`. The closures read `self.last_iters` when they run, so a later
 * `iterate_field` changes what they draw, and a shorter window makes them
 * raise IndexError part way through.
 *
 * A plot artifact is reduced to the three coordinate arrays it draws. Figure,
 * axes, widgets and the animation timer are left to matplotlib.
 */
module Plot3DView {
  import opened Wrappers
  import opened Builtins
  import opened Grids
  import opened SliceIndex
  import AC = AnimationControl
  import opened Maps

  /** A 3-D line artifact: the x, y and z coordinates it draws. */
  datatype Artifact = Artifact(xs: seq<real>, ys: seq<real>, zs: seq<real>)

  const EMPTY_REDUCTION_MESSAGE := "zero-size array to reduction operation minimum which has no identity"

  /** Every snapshot holds `numVars` arrays, each of the parameter grid's shape. */
  predicate WindowShaped(window: seq<State>, numVars: nat, rows: nat, cols: nat)
  {
    forall i :: 0 <= i < |window| ==>
      |window[i]| == numVars && forall v :: 0 <= v < numVars ==> Shaped(window[i][v], rows, cols)
  }

  /** `[it[v] for it in window]` flattened: every value variable `v` takes in the window. */
  function WindowValues(window: seq<State>, v: nat): seq<real>
    requires forall i :: 0 <= i < |window| ==> v < |window[i]|
  {
    if window == [] then [] else Flatten(window[0][v]) + WindowValues(window[1..], v)
  }

  lemma {:induction false} InWindowValues(window: seq<State>, v: nat, i: nat, r: nat, c: nat)
    requires forall j :: 0 <= j < |window| ==> v < |window[j]|
    requires i < |window| && r < |window[i][v]| && c < |window[i][v][r]|
    ensures window[i][v][r][c] in WindowValues(window, v)
    decreases i
  {
    if i == 0 {
      InFlatten(window[0][v], r, c);
    } else {
      InWindowValues(window[1..], v, i - 1, r, c);
      assert window[1..][i - 1] == window[i];
    }
  }

  /**
   * The z-limits of variable `v`'s axis: `np.min` and `np.max` over the whole
   * window. Both are values the variable takes, and every value it takes in
   * any snapshot lies between them.
   */
  function ZLimits(window: seq<State>, numVars: nat, rows: nat, cols: nat, v: nat): (lim: (real, real))
    requires WindowShaped(window, numVars, rows, cols)
    requires window != [] && rows >= 1 && cols >= 1 && v < numVars
    ensures lim.0 in WindowValues(window, v) && lim.1 in WindowValues(window, v)
    ensures forall i, r, c :: 0 <= i < |window| && 0 <= r < rows && 0 <= c < cols ==>
              lim.0 <= window[i][v][r][c] <= lim.1
  {
    var values := WindowValues(window, v);
    FlattenNonEmpty(window[0][v]);
    assert |values| > 0;
    var lim := (MinOf(values), MaxOf(values));
    assert forall i, r, c :: 0 <= i < |window| && 0 <= r < rows && 0 <= c < cols ==>
             lim.0 <= window[i][v][r][c] <= lim.1 by {
      forall i, r, c | 0 <= i < |window| && 0 <= r < rows && 0 <= c < cols
        ensures lim.0 <= window[i][v][r][c] <= lim.1
      {
        InWindowValues(window, v, i, r, c);
      }
    }
    lim
  }

  /** Artifact (v', i') is redrawn before (v, i): variables in the outer loop, snapshots in the inner one. */
  predicate Before(v': nat, i': nat, v: nat, i: nat)
  {
    v' < v || (v' == v && i' < i)
  }

  class SliceView {
    const owner: MapBase
    /** The two parameter grids: column c of both is the slice at the c-th value of the first parameter. */
    const x: Grid
    const y: Grid
    const rows: nat
    const cols: nat
    const numVars: nat
    /** `last_iters` as it was when the view was built: it fixes the artifacts and the z-limits. */
    const window: seq<State>
    /** Per variable, the (min, max) given to `set_zlim3d`. */
    const zLimits: seq<(real, real)>
    /** `var_sct`: the artifact of variable v and snapshot i is `artifacts[v, i]`. */
    const artifacts: array2<Artifact>
    /** The slider's value `sparam.val`. */
    var sliderVal: real
    /** The slider's connected `update` callbacks, by id, oldest first. */
    var observers: seq<nat>
    /** The id the slider's callback registry hands out next. */
    var nextCid: nat

    predicate Shape()
    {
      && rows >= 1 && cols >= 2
      && Shaped(x, rows, cols) && Shaped(y, rows, cols)
      && WindowShaped(window, numVars, rows, cols)
      && artifacts.Length0 == numVars && artifacts.Length1 == |window|
    }

    function ControlState(): AC.Control
      reads this, owner
    {
      AC.Control(observers, nextCid, owner.cid, owner.anim)
    }

    ghost predicate Valid()
      reads this, owner
    {
      Shape() && AC.Fresh(ControlState())
    }

    /**
     * `self.last_iters[i][v][:, ind]`, read when the redraw runs: IndexError
     * (None) when the current window has no snapshot i, the snapshot no
     * variable v, or the array no column `ind`.
     */
    function ZColumn(ind: int, v: nat, i: nat): Option<seq<real>>
      reads owner`lastIters
    {
      if i < |owner.lastIters| && v < |owner.lastIters[i]| then ColumnAt(owner.lastIters[i][v], ind) else None
    }

    /** The current window still covers every artifact with arrays of the grid's shape. */
    ghost predicate LiveShaped()
      reads owner`lastIters
    {
      && |window| <= |owner.lastIters|
      && forall i :: 0 <= i < |window| ==>
           numVars <= |owner.lastIters[i]| && forall v :: 0 <= v < numVars ==> Shaped(owner.lastIters[i][v], rows, cols)
    }

    /** An artifact redrawn at grid column c with heights `zs`. */
    function Redraw(c: nat, zs: seq<real>): Artifact
      requires Shape() && c < cols
    {
      Artifact(Column(x, c), Column(y, c), zs)
    }

    /** What artifact (v, i) draws at column c of the current window. */
    function ArtifactAt(v: nat, i: nat, c: nat): Artifact
      requires Shape() && LiveShaped() && v < numVars && i < |window| && c < cols
      reads owner`lastIters
    {
      Redraw(c, Column(owner.lastIters[i][v], c))
    }

    /** Every artifact draws column c of the current window. */
    ghost predicate Shows(c: nat)
      requires Shape() && LiveShaped() && c < cols
      reads owner`lastIters, artifacts
    {
      forall v, i :: 0 <= v < numVars && 0 <= i < |window| ==> artifacts[v, i] == ArtifactAt(v, i, c)
    }

    /** Every artifact's heights can be read at index `ind`. */
    ghost predicate Complete(ind: int)
      reads owner`lastIters
    {
      forall v, i :: 0 <= v < numVars && 0 <= i < |window| ==> ZColumn(ind, v, i).Some?
    }

    /** (v0, i0) is the first artifact, in loop order, whose heights cannot be read at `ind`. */
    ghost predicate FirstFailure(ind: int, v0: nat, i0: nat)
      reads owner`lastIters
    {
      && v0 < numVars && i0 < |window| && ZColumn(ind, v0, i0).None?
      && forall v, i :: 0 <= v < numVars && 0 <= i < |window| && Before(v, i, v0, i0) ==> ZColumn(ind, v, i).Some?
    }

    /** A table of what every artifact draws, variable by variable. */
    predicate Fits(t: seq<seq<Artifact>>)
    {
      |t| == numVars && forall v :: 0 <= v < numVars ==> |t[v]| == |window|
    }

    /** What every artifact draws now. */
    function Snapshot(): (t: seq<seq<Artifact>>)
      requires Shape()
      reads artifacts
      ensures Fits(t)
      ensures forall v, i :: 0 <= v < numVars && 0 <= i < |window| ==> t[v][i] == artifacts[v, i]
    {
      seq(numVars, v reads artifacts requires 0 <= v < numVars =>
        seq(|window|, i reads artifacts requires 0 <= i < |window| => artifacts[v, i]))
    }

    /** Every artifact before (v0, i0) is redrawn at column c with its heights at `ind`; the rest are as in `before`. */
    ghost predicate RedrawnBefore(c: nat, ind: int, v0: nat, i0: nat, before: seq<seq<Artifact>>)
      requires Shape() && c < cols && Fits(before)
      reads owner`lastIters, artifacts
    {
      forall v, i :: 0 <= v < numVars && 0 <= i < |window| ==>
        if Before(v, i, v0, i0) then ZColumn(ind, v, i).Some? && artifacts[v, i] == Redraw(c, ZColumn(ind, v, i).value)
        else artifacts[v, i] == before[v][i]
    }

    /**
     * The loop stopped at (v0, i0): the artifacts before it are redrawn, (v0, i0)
     * already has its new x and y (`set_data` runs before the heights are
     * read) and keeps its old heights, and the rest are as they were.
     */
    ghost predicate StoppedAt(c: nat, ind: int, v0: nat, i0: nat, before: seq<seq<Artifact>>)
      requires Shape() && c < cols && Fits(before)
      reads owner`lastIters, artifacts
    {
      && FirstFailure(ind, v0, i0)
      && forall v, i :: 0 <= v < numVars && 0 <= i < |window| ==>
           if Before(v, i, v0, i0) then artifacts[v, i] == Redraw(c, ZColumn(ind, v, i).value)
           else if v == v0 && i == i0 then artifacts[v, i] == Redraw(c, before[v][i].zs)
           else artifacts[v, i] == before[v][i]
    }

    /**
     * The effect of the loop shared by `update`, `anim_plot` and `clear_plot`
     * for index `ind`, from the artifacts `before`. With no artifact nothing happens. An index outside the
     * parameter grid raises IndexError at the first artifact, before any
     * change. Otherwise the artifacts are redrawn in loop order until one whose
     * heights cannot be read at `ind` in the current window, which raises
     * IndexError.
     */
    ghost predicate Redrawn(ind: int, before: seq<seq<Artifact>>, err: Option<Error>)
      requires Shape() && Fits(before)
      reads owner`lastIters, artifacts
    {
      if numVars == 0 || |window| == 0 then err == None
      else
        match NormalizeIndex(ind, cols)
        case None => err == Some(IndexError) && Snapshot() == before
        case Some(c) =>
          if Complete(ind) then err == None && RedrawnBefore(c, ind, numVars, 0, before)
          else err == Some(IndexError) && exists v0: nat, i0: nat :: StoppedAt(c, ind, v0, i0, before)
    }

    /** With the current window shaped like the grid, the heights at `ind` are column c of each snapshot. */
    lemma LiveColumns(ind: int, c: nat)
      requires Shape() && LiveShaped() && NormalizeIndex(ind, cols) == Some(c)
      ensures Complete(ind)
      ensures forall v, i :: 0 <= v < numVars && 0 <= i < |window| ==>
                ZColumn(ind, v, i) == Some(Column(owner.lastIters[i][v], c))
    {
      forall v, i | 0 <= v < numVars && 0 <= i < |window|
        ensures ZColumn(ind, v, i) == Some(Column(owner.lastIters[i][v], c))
      {
        ColumnAtShaped(owner.lastIters[i][v], rows, cols, ind);
      }
    }

    constructor (owner: MapBase, x: Grid, y: Grid, numVars: nat)
      requires |x| >= 1 && |x[0]| >= 2
      requires Shaped(x, |x|, |x[0]|) && Shaped(y, |x|, |x[0]|)
      requires WindowShaped(owner.lastIters, numVars, |x|, |x[0]|)
      requires numVars > 0 ==> owner.lastIters != []
      ensures this.owner == owner && this.x == x && this.y == y
      ensures window == owner.lastIters && this.numVars == numVars
      ensures rows == |x| && cols == |x[0]|
      ensures Shape() && LiveShaped() && fresh(artifacts)
      ensures |zLimits| == numVars
      ensures forall v :: 0 <= v < numVars ==> zLimits[v] == ZLimits(window, numVars, rows, cols, v)
      ensures sliderVal == x[0][cols / 2]
      ensures observers == [0] && nextCid == 1
      ensures Shows(cols / 2)
    {
      this.owner := owner;
      this.x := x;
      this.y := y;
      rows := |x|;
      cols := |x[0]|;
      this.numVars := numVars;
      window := owner.lastIters;
      var w := owner.lastIters;
      zLimits := seq(numVars, v requires 0 <= v < numVars => ZLimits(w, numVars, |x|, |x[0]|, v));
      artifacts := new Artifact[numVars, |w|];
      sliderVal := x[0][|x[0]| / 2];
      observers := [0];
      nextCid := 1;
      new;
      var _ := ShowColumn(cols / 2);
    }

    /**
     * The loop of `update`, `anim_plot` and `clear_plot`: every artifact (v, i),
     * in order, to column `ind` of `x`, `y` and the current `last_iters[i][v]`.
     */
    method ShowColumn(ind: int) returns (err: Option<Error>)
      requires Shape()
      modifies artifacts
      ensures Redrawn(ind, old(Snapshot()), err)
      ensures LiveShaped() && NormalizeIndex(ind, cols).Some? ==>
        err == None && Shows(NormalizeIndex(ind, cols).value)
      ensures numVars > 0 && |owner.lastIters| < |window| ==> err == Some(IndexError)
    {
      ghost var before := Snapshot();
      if numVars == 0 || |window| == 0 {
        return None;
      }
      var c := NormalizeIndex(ind, cols);
      if c.None? {
        return Some(IndexError);
      }
      var col := c.value;
      if LiveShaped() {
        LiveColumns(ind, col);
      }
      if |owner.lastIters| < |window| {
        assert ZColumn(ind, 0, |owner.lastIters|).None?;
      }
      var v := 0;
      while v < numVars
        invariant 0 <= v <= numVars
        invariant RedrawnBefore(col, ind, v, 0, before)
      {
        var i := 0;
        while i < |window|
          invariant 0 <= i <= |window|
          invariant RedrawnBefore(col, ind, v, i, before)
        {
          var zs := ZColumn(ind, v, i);
          if zs.None? {
            artifacts[v, i] := Redraw(col, artifacts[v, i].zs);
            assert StoppedAt(col, ind, v, i, before);
            return Some(IndexError);
          }
          artifacts[v, i] := Redraw(col, zs.value);
          i := i + 1;
        }
        v := v + 1;
      }
      err := None;
    }

    /**
     * `update`: the column `int(cols * (val - x[0][0]) / (x[0][-1] - x[0][0]))`
     * for the slider's value, unclamped; a degenerate first-parameter range
     * makes `int()` raise.
     */
    method Update() returns (err: Option<Error>)
      requires Shape()
      modifies artifacts
      ensures var ind := SliderIndex(cols, sliderVal, x[0][0], x[0][cols - 1]);
        if ind.None? then err == Some(ConversionError) && unchanged(artifacts)
        else Redrawn(ind.value, old(Snapshot()), err)
    {
      var ind := SliderIndex(cols, sliderVal, x[0][0], x[0][cols - 1]);
      if ind.None? {
        return Some(ConversionError);
      }
      err := ShowColumn(ind.value);
    }

    /**
     * The slider moved to `p`: its connected callbacks run `update`; with none
     * connected the plot does not change. (Further callbacks repeat the same
     * update, which changes nothing more.)
     */
    method SliderChanged(p: real) returns (err: Option<Error>)
      requires Shape()
      modifies this`sliderVal, artifacts
      ensures sliderVal == p
      ensures observers == [] ==> err == None && unchanged(artifacts)
      ensures observers != [] ==>
        var ind := SliderIndex(cols, p, x[0][0], x[0][cols - 1]);
        if ind.None? then err == Some(ConversionError) && unchanged(artifacts)
        else Redrawn(ind.value, old(Snapshot()), err)
    {
      sliderVal := p;
      if observers == [] {
        return None;
      }
      err := Update();
    }

    /**
     * `anim_plot(frame)`: column `int(cols * frame / 100)`; every frame of the
     * sweep is inside the grid, so with the current window shaped like the
     * grid no frame fails.
     */
    method AnimPlot(frame: int) returns (err: Option<Error>)
      requires Shape()
      modifies artifacts
      ensures Redrawn(AnimIndex(cols, frame), old(Snapshot()), err)
      ensures 0 <= frame < FRAMES ==> 0 <= AnimIndex(cols, frame) < cols
      ensures 0 <= frame < FRAMES && LiveShaped() ==> err == None && Shows(AnimIndex(cols, frame))
    {
      var ind := AnimIndex(cols, frame);
      if 0 <= frame < FRAMES {
        AnimIndexInRange(cols, frame);
        assert NormalizeIndex(ind, cols) == Some(ind);
      }
      err := ShowColumn(ind);
    }

    /** `clear_plot`, the animation's init function: every artifact to column 0. */
    method ClearPlot() returns (err: Option<Error>)
      requires Shape()
      modifies artifacts
      ensures Redrawn(0, old(Snapshot()), err)
      ensures LiveShaped() ==> err == None && Shows(0)
    {
      err := ShowColumn(0);
    }

    /**
     * `start_anim`: disconnects the callback `self.cid` names; constructs the
     * animation if there is none, whose init function `clear_plot` redraws
     * column 0 before the first frame (`initErr` is what it raises), else
     * restarts the existing animation.
     */
    method StartAnim() returns (initErr: Option<Error>)
      requires Valid()
      modifies this`observers, owner`anim, artifacts
      ensures Valid()
      ensures ControlState() == AC.StartAnim(old(ControlState()))
      ensures old(owner.anim).None? ==> Redrawn(0, old(Snapshot()), initErr)
      ensures old(owner.anim).None? && LiveShaped() ==> initErr == None && Shows(0)
      ensures old(owner.anim).Some? ==> initErr == None && unchanged(artifacts)
    {
      AC.FreshPreserved(ControlState());
      observers := AC.Disconnect(observers, owner.cid);
      initErr := None;
      if owner.anim.None? {
        owner.anim := Some(AC.Animation(true));
        initErr := ClearPlot();
      } else {
        owner.anim := Some(AC.Animation(true));
      }
    }

    /** `stop_anim`: connects `update` to the slider again, and stops the animation if there is one. */
    method StopAnim()
      requires Valid()
      modifies this`observers, this`nextCid, owner`cid, owner`anim
      ensures Valid()
      ensures ControlState() == AC.StopAnim(old(ControlState()))
    {
      AC.FreshPreserved(ControlState());
      owner.cid := Some(nextCid);
      observers := observers + [nextCid];
      nextCid := nextCid + 1;
      if owner.anim.Some? {
        owner.anim := Some(AC.Animation(false));
      }
    }
  }

  /**
   * The part of `_plot3D` that builds the view: connects `update` to the new
   * slider (`self.cid` becomes its id, 0), takes the two parameter grids,
   * draws every artifact at the middle column and sets each variable's
   * z-limits. With at least one variable and an empty window `np.min` raises
   * ValueError, after `self.cid` was set.
   */
  method Create(m: MapBase) returns (res: Result<SliceView, Error>)
    requires |m.params| == 2
    requires var x := m.params[0].1;
      && |x| >= 1 && |x[0]| >= 2
      && Shaped(x, |x|, |x[0]|) && Shaped(m.params[1].1, |x|, |x[0]|)
      && WindowShaped(m.lastIters, |m.vars|, |x|, |x[0]|)
    modifies m`cid
    ensures m.cid == Some(0)
    ensures res.Failure? <==> |m.vars| > 0 && m.lastIters == []
    ensures res.Failure? ==> res.error == ValueError(EMPTY_REDUCTION_MESSAGE)
    ensures res.Success? ==>
      var view := res.value;
      && fresh(view) && fresh(view.artifacts) && view.Valid() && view.LiveShaped()
      && view.owner == m && view.x == m.params[0].1 && view.y == m.params[1].1
      && view.window == m.lastIters && view.numVars == |m.vars|
      && view.sliderVal == view.x[0][view.cols / 2]
      && view.observers == [0] && view.nextCid == 1
      && view.Shows(view.cols / 2)
      && |view.zLimits| == view.numVars
      && forall v :: 0 <= v < view.numVars ==> view.zLimits[v] == ZLimits(view.window, view.numVars, view.rows, view.cols, v)
  {
    m.cid := Some(0);
    var x, y := m.params[0].1, m.params[1].1;
    if |m.vars| > 0 && m.lastIters == [] {
      return Failure(ValueError(EMPTY_REDUCTION_MESSAGE));
    }
    var view := new SliceView(m, x, y, |m.vars|);
    res := Success(view);
  }

  /**
   * Start pressed while the slider drives the plot, then the slider moved:
   * the move changes nothing, and the plot shows what Start left.
   */
  method SlideWhileAnimating(view: SliceView, p: real) returns (err: Option<Error>)
    requires view.Valid() && view.LiveShaped() && AC.Idle(view.ControlState())
    modifies view`observers, view`sliderVal, view.owner`anim, view.artifacts
    ensures err == None && AC.Running(view.ControlState())
    ensures old(view.owner.anim).None? ==> view.Shows(0)
    ensures old(view.owner.anim).Some? ==> unchanged(view.artifacts)
  {
    AC.StartFromIdle(view.ControlState());
    var _ := view.StartAnim();
    err := view.SliderChanged(p);
  }

  /**
   * The slider dragged to its maximum while connected: the unclamped index is
   * `cols`, one past the grid, so `update` raises IndexError before changing
   * any artifact.
   */
  method SlideToMaximum(view: SliceView) returns (err: Option<Error>)
    requires view.Shape() && view.observers != []
    requires view.numVars > 0 && view.window != []
    requires view.x[0][0] != view.x[0][view.cols - 1]
    modifies view`sliderVal, view.artifacts
    ensures err == Some(IndexError) && view.Snapshot() == old(view.Snapshot())
  {
    SliderIndexAtMaximum(view.cols, view.x[0][0], view.x[0][view.cols - 1]);
    err := view.SliderChanged(view.x[0][view.cols - 1]);
  }
}
