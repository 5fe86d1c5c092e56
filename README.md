# Bifurcation diagrams: a Dafny model of the iteration driver, the progress bar and the 3-D slice view

The repository draws bifurcation diagrams of discrete dynamical maps. This project models the stateful parts that do not depend on NumPy or matplotlib and proves properties about them.

- **`MapBase`** (`core/map_base.py`) is the class every map extends.
  - Its `params` and `vars` setters check their input and choose the plot strategy.
  - `iterate_field` applies the map `iterations` times. It keeps only the last `last_num` states, the *window*.
  - The interactive 3-D view built by `_plot3D` has a slider and Start/Stop buttons. For a chosen column of the parameter grid, they redraw one plot artifact per variable and per snapshot of the window.
- **`ProgressBarPrinter`** (`core/progress.py`) decorates `iterate_field`.
  - It drives the generator to exhaustion.
  - It redraws a fixed-width bar only when progress has advanced by at least `step`.
  - It ends with a 100% bar.

Modules:

| module | file | content |
|---|---|---|
| `Wrappers` | wrappers.dfy | `Option`, `Outcome`, `Result` |
| `Builtins` | builtins.dfy | Python's `int()` on floats (truncation), NumPy's negative indexing, `str * n`, `str.ljust`, `str(int)`, and a `Console` that `print` appends to |
| `Progress` | progress.dfy | the bar text, the throttling state machine as functions (`Run`, `Printed`) and the `ProgressBarPrinter` class |
| `Grids` | grids.dfy | 2-D arrays as `seq<seq<real>>`: shape, column `[:, c]`, `flatten`, min and max |
| `SliceIndex` | slice_index.dfy | the slider and animation-frame index formulas |
| `AnimationControl` | animation_control.dfy | `start_anim`/`stop_anim` as a state machine over the slider's callbacks, `self.cid` and `self.anim` |
| `Maps` | map_base.dfy | the `MapBase` class: setters, `__init__`, `iterate_field` and its window |
| `Plot3DView` | plot3d_view.dfy | the `SliceView` class, which holds the state shared by `_plot3D`'s closures, with its artifact array; z-limits; `update`, `anim_plot`, `clear_plot`, `start_anim`, `stop_anim` |

Modelling choices:
- The concrete map's `iterate` is the constant `MapBase.iterate`. It is a total function from the parameters and a state tuple to the next state tuple.
- The generator `iterate_field` is split into two parts:
  - `IterateField` runs its body and returns the progress values it yields.
  - `ProgressBarPrinter.Call` then consumes those values.

  The text printed is the same as when the two are interleaved, because the generator prints its banner before its first yield and nothing after it.
- A plot artifact is the record of the three coordinate arrays it draws. `var_sct` is an `array2<Artifact>` indexed by variable and snapshot, and every redraw changes it in place.
- Progress values and index ratios are exact `real`s. Python's `int()` is truncation toward zero (`Builtins.Trunc`).

## Model

| member | source | states |
|---|---|---|
| Builtins.Trunc | core/progress.py:42-43 | `int()` of a float: for a non-negative argument the greatest integer not above it, for a negative one the least integer not below it |
| Builtins.NormalizeIndex | core/map_base.py:133-134 | NumPy's index into an axis of length `size`: defined exactly for `-size <= ind < size`, the selected position is congruent to `ind` modulo `size`, and a non-negative index selects itself |
| Builtins.Repeat | core/progress.py:44 | `'=' * n` has `max(n, 0)` characters, all equal to the repeated one |
| Builtins.LJust | core/progress.py:44 | `s.ljust(width)` has length `max(|s|, width)`, starts with `s` and continues with spaces |
| Builtins.NatToString | core/progress.py:44 | the decimal text of a percentage has only digits and no leading zero |
| Builtins.NatToStringRoundTrip | core/progress.py:44 | reading the decimal text of `n` back gives `n` |
| Builtins.IntToString | core/progress.py:44 | definition: `str(n)` of an integer, a `'-'` before the decimal text of a negative one |
| Builtins.Console.Write | core/progress.py:44 | `print` appends exactly its text to the output and nothing else |
| Progress.Bar | core/progress.py:43-44 | definition: `('=' * int(width * p)).ljust(width)` |
| Progress.BarLine | core/progress.py:42-44 | definition: `"\rProgress: ["`, the bar, `"] "`, `int(100 * p)` and `"%"` |
| Progress.MapSeq | core/progress.py:37-39 | definition: a function applied to every element of a sequence, in order |
| Progress.Lines | core/progress.py:37-39 | definition: the bar line of each printed value, in order |
| Progress.LinesAppend | core/progress.py:37-39 | the bar lines of two runs of printed values, one after the other, are the lines of the first followed by the lines of the second: one line per value, in order |
| Progress.LinesSmall | core/progress.py:37-39 | no printed value gives no line, and one printed value gives exactly its bar line |
| Progress.Fires | core/progress.py:37 | definition: `current_progress - last_progress >= step` after `current_progress := p` |
| Progress.Advance | core/progress.py:34-38 | definition: the counters after one `update(p)` |
| Progress.Run | core/progress.py:22-24 | definition: the counters after `update` on each value in turn |
| Progress.Printed | core/progress.py:22-24 | definition: the values, in order, for which `update` prints a bar |
| Progress.BarShape | core/progress.py:43-44 | for `0 <= p <= 1` the bracketed bar has exactly `width` characters: `int(width * p)` (between 0 and `width`) `'='` characters, then spaces |
| Progress.PercentageRange | core/progress.py:42 | for `0 <= p <= 1` the percentage `int(100 * p)` lies in [0, 100] |
| Progress.FullBar | core/progress.py:29 | the final bar `print_progress(1)` is all `'='` and reads `100%` |
| Progress.PrintedSpacing | core/progress.py:34-39 | over any input sequence: the first bar is at least `step` past the starting `last_progress`, consecutive printed values differ by at least `step`, every printed value is an input value, and `last_progress` ends at the last printed value (or stays put if none was printed) |
| Progress.SpacedLowerBound | core/progress.py:37-39 | values whose first is at least `step` past a base and whose neighbours are at least `step` apart have their k-th at least `(k + 1) * step` past the base |
| Progress.PrintedLowerBound | core/progress.py:37-39 | the k-th printed value is at least `(k + 1) * step` past the starting `last_progress` |
| Progress.LastNotAhead | core/progress.py:35-38 | `current_progress` ends at the latest input; for a non-decreasing input that starts no lower than `current_progress`, `last_progress <= current_progress` is kept |
| Progress.ProgressBarPrinter.constructor | core/progress.py:7-14 | a new printer stores the given width and step, and both counters start at 0 |
| Progress.ProgressBarPrinter.PrintProgress | core/progress.py:41-44 | appends exactly the bar line for `p`: `"\rProgress: ["`, the bar, `"] "`, `int(100 * p)` and `"%"`, with no line end |
| Progress.ProgressBarPrinter.Update | core/progress.py:34-39 | `current_progress := p` always. `last_progress := p` plus one printed bar iff `p - last_progress >= step`. Otherwise `last_progress` and the output are unchanged |
| Progress.FeedStep | core/progress.py:22-24 | one more value advances the counters as one `update` does, and adds its bar line to the printed lines exactly when it fires |
| Progress.ProgressBarPrinter.Feed | core/progress.py:21-24 | the `while True` loop: the counters end as `Run` of the values from the old counters, and the output gains exactly the bar lines of the values `Printed` names |
| Progress.ProgressBarPrinter.Call | core/progress.py:19-32 | every produced value is passed to `update` in order (the output gains the throttled bars), then both counters are reset to 0, the 100% bar and `"\n\n"` are printed, and the generator's return value is returned |
| Progress.ProgressBar | core/progress.py:47-51 | the factory makes a fresh printer with exactly the given width and step (defaults 30 and 0.05) and zeroed counters |
| Grids.Column | core/map_base.py:133 | definition: `g[:, c]` for a column inside every row: entry `r` is `g[r][c]` |
| Grids.ColumnAt | core/map_base.py:133-134 | definition: `g[:, ind]` with NumPy's negative indexing in every row, or IndexError (None) when some row has no such index |
| Grids.ColumnAtShaped | core/map_base.py:133-134 | for an array of `cols` columns with a row, `g[:, ind]` exists exactly when `ind` lies in `[-cols, cols)`, and then it is the column `ind` selects |
| Grids.Flatten | core/map_base.py:190 | definition: `flatten()`, the rows one after the other |
| Grids.InFlatten | core/map_base.py:190-191 | every element of a 2-D array is in its flattening |
| Grids.FlattenNonEmpty | core/map_base.py:190-191 | an array with a non-empty row has a non-empty flattening |
| Grids.MinOf | core/map_base.py:191 | `np.min` is one of the values and is below or equal to all of them |
| Grids.MaxOf | core/map_base.py:191 | `np.max` is one of the values and is above or equal to all of them |
| SliceIndex.SliderIndex | core/map_base.py:129 | definition: `int(size * (p - x[0][0]) / (x[0][-1] - x[0][0]))`, or a conversion error (None) when the range is empty |
| SliceIndex.AnimIndex | core/map_base.py:140 | definition: `int(size * frame / 100)` |
| SliceIndex.SliderIndexInRange | core/map_base.py:129 | a slider value in `[x[0][0], x[0][-1])` selects a column in `[0, size)`, and the minimum selects column 0 |
| SliceIndex.SliderIndexAtMaximum | core/map_base.py:129 | the slider's maximum selects column `size`, one past the grid, because the index is not clamped |
| SliceIndex.SliderIndexMonotone | core/map_base.py:129 | on an increasing range, a higher slider value never selects a lower column |
| SliceIndex.AnimIndexInRange | core/map_base.py:140 | every frame 0..99 selects a column in `[0, size)`, and frame 0 selects column 0 |
| SliceIndex.AnimIndexMonotone | core/map_base.py:140 | a later frame never selects an earlier column |
| AnimationControl.Disconnect | core/map_base.py:160 | `disconnect(cid)` removes exactly the callback with that id and keeps every other one |
| AnimationControl.Connect | core/map_base.py:136 | definition: `sparam.on_changed(update)` adds a callback with the next id and makes it `self.cid` |
| AnimationControl.StartAnim | core/map_base.py:159-165 | definition: `start_anim` disconnects `self.cid`'s callback, and the animation runs, whether new or restarted |
| AnimationControl.StopAnim | core/map_base.py:167-171 | definition: `stop_anim` connects a new callback, and an existing animation stops |
| AnimationControl.DisconnectLatest | core/map_base.py:160-168 | disconnecting the callback that was just connected restores the previous callbacks exactly |
| AnimationControl.FreshPreserved | core/map_base.py:159-171 | Start and Stop keep every callback id in use below the next id to be handed out |
| AnimationControl.StartFromIdle | core/map_base.py:159-165 | Start in the slider-driven state runs the animation with no slider callback connected |
| AnimationControl.StopFromRunning | core/map_base.py:167-171 | Stop in the timer-driven state connects exactly one slider callback, the one `self.cid` names, and stops the animation |
| AnimationControl.StopThenStart | core/map_base.py:159-171 | Stop followed by Start leaves the slider's callbacks as they were before the Stop, with the animation running |
| AnimationControl.RepeatedStopBreaksExclusivity | core/map_base.py:160-168 | Stop in the slider-driven state, then Start, leaves the original slider callback connected while the animation runs |
| AnimationControl.PressesSettled | core/map_base.py:159-178 | if Stop is pressed only right after Start (or first from the running state), every sequence of presses ends slider-driven or timer-driven with fresh ids |
| AnimationControl.AlternatingPressesExclusive | core/map_base.py:159-178 | from the slider-driven state, if Stop is pressed only right after Start, the slider and the animation never both drive the plot |
| Maps.Values | core/map_base.py:71 | definition: `list(vars.values())`, the dict's values in insertion order |
| Maps.Apply | core/map_base.py:73-74 | definition: the state after `k` applications of the map |
| Maps.WindowAfter | core/map_base.py:73-77 | definition: the window after the first `i` loop steps, appending the state after step `j` when `j >= n - last_num` |
| Maps.Window | core/map_base.py:67-77 | definition: the window after all `n` loop steps (none for `n <= 0`) |
| Maps.WindowLength | core/map_base.py:73-77 | definition: `min(last_num, n)`, clamped at 0 |
| Maps.Fractions | core/map_base.py:73-79 | definition: `[i / n for i in range(n)]` |
| Maps.WindowAfterContents | core/map_base.py:73-77 | after `i` loop steps the window holds the states after steps `first+1 ..= i`, where `first = max(0, n - last_num)` |
| Maps.WindowContents | core/map_base.py:67-77 | after `iterate_field(n)` the window has `min(last_num, n)` states (none if either is not positive). Entry k is the state after `n - len + k + 1` applications of the map, so entries are in chronological order and the last is the state after exactly `n` steps |
| Maps.FractionsIncreasing | core/map_base.py:73-79 | the yielded progress values are `i / n` for `i` in `range(n)`: they start at 0, strictly increase and lie in [0, 1) |
| Maps.IterationBarRedraws | core/map_base.py:65-79 | with width 32 and step 0.032347, starting from zeroed counters, the iteration bar is redrawn at most 30 times before the final 100% bar |
| Maps.MapBase.constructor | core/map_base.py:48-59 | name `"Map"`, the given `last_num` (default 100), an empty window, empty params and vars passed through the setters (so `_plotter` stays unassigned), and no animation or callback id |
| Maps.MapBase.SetParams | core/map_base.py:22-35 | a non-dict raises TypeError and more than 2 entries raise ValueError, both with the source's messages and both changing nothing. Otherwise the dict is stored, with 1 entry selecting the 2-D plot, 2 selecting the 3-D plot and 0 leaving `_plotter` as it was. The bound of at most 2 parameters with a matching plotter is preserved |
| Maps.MapBase.SetVars | core/map_base.py:41-46 | a non-dict raises TypeError and changes nothing; a dict is stored |
| Maps.MapBase.IterateField | core/map_base.py:66-79 | `last_iters` is rebuilt from scratch as the window of the map applied to the variables' values, the yielded progress values are `i / n` in order, and the output gains exactly the banner |
| Maps.MapBase.IterateFieldWithProgress | core/map_base.py:65-79 | the decorated call prints the banner, the throttled bars for `i / n`, the 100% bar and a blank line. It leaves the window in `last_iters` and zeroed counters in the printer |
| Maps.RerunIsIdentical | core/map_base.py:67-77 | two runs of `iterate_field` with the same count leave the same window |
| Plot3DView.WindowValues | core/map_base.py:190 | definition: `np.array([it[v] for it in last_iters])` flattened, snapshot by snapshot |
| Plot3DView.InWindowValues | core/map_base.py:190 | every value variable `v` takes in any snapshot is among `[it[v] for it in last_iters]` |
| Plot3DView.ZLimits | core/map_base.py:190-191 | a variable's z-limits are values it takes in the window, and every value it takes at any grid point of any snapshot lies between them |
| Plot3DView.SliceView.ZColumn | core/map_base.py:134 | definition: `self.last_iters[i][v_ind][:, ind]` read when the redraw runs, or IndexError (None) |
| Plot3DView.SliceView.LiveColumns | core/map_base.py:131-134 | while the current window still covers every artifact with arrays of the grid's shape, every artifact's heights can be read at a grid index, and they are that column of the current snapshot |
| Plot3DView.SliceView.constructor | core/map_base.py:107-201 | the view takes the window `last_iters` holds. It starts with the slider at `x[0][middle_x]`, one `update` callback with id 0, one artifact per variable and snapshot drawing the middle column `int(cols / 2)`, and each variable's z-limits over the whole window |
| Plot3DView.SliceView.ShowColumn | core/map_base.py:131-134 | with no artifacts nothing changes. An index outside `[-cols, cols)` raises IndexError before any change. Otherwise the artifacts are redrawn in loop order, each at column `ind` of `x`, `y` and the current `last_iters[i][v]`. At the first artifact whose heights cannot be read, the loop stops with IndexError: that artifact already has its new x and y, and the later ones are unchanged. While the current window covers every artifact with the grid's shape, nothing fails and every artifact shows the column. A window shorter than at creation always ends in IndexError |
| Plot3DView.SliceView.Update | core/map_base.py:127-134 | the slider value selects the unclamped column `int(cols * (p - x[0][0]) / (x[0][-1] - x[0][0]))` and every artifact is redrawn at it. A zero-width range fails in `int()` and changes nothing |
| Plot3DView.SliceView.SliderChanged | core/map_base.py:127-136 | moving the slider sets its value and, only while an `update` callback is connected, redraws as `update` does. With none connected, the plot does not change |
| Plot3DView.SliceView.AnimPlot | core/map_base.py:139-145 | frame `f` redraws every artifact at column `int(cols * f / 100)`, which lies inside the grid for frames 0..99, so those frames never fail while the current window covers every artifact |
| Plot3DView.SliceView.ClearPlot | core/map_base.py:149-155 | every artifact is redrawn at column 0, and this never fails while the current window covers every artifact |
| Plot3DView.SliceView.StartAnim | core/map_base.py:159-165 | disconnects the callback `self.cid` names. It constructs the animation only when there is none, in which case the init function first redraws everything at column 0 and may raise as that redraw does. Otherwise it restarts the existing animation and leaves the plot as it is |
| Plot3DView.SliceView.StopAnim | core/map_base.py:167-171 | connects a new `update` callback, makes it `self.cid`, and stops the animation only if one exists |
| Plot3DView.Create | core/map_base.py:107-201 | `self.cid` becomes 0. With at least one variable and an empty window, creation fails with NumPy's ValueError for `np.min` of an empty array. Otherwise the view holds the two parameter grids and the window, draws every artifact at the middle column and has one z-limit pair per variable |
| Plot3DView.SlideWhileAnimating | core/map_base.py:159-165 | Start from the slider-driven state, then a slider move: the animation runs, no slider callback is connected, and the move leaves the plot as Start left it |
| Plot3DView.SlideToMaximum | core/map_base.py:127-134 | the slider at its maximum, while connected, makes `update` raise IndexError without changing any artifact |

## What the code does not guarantee

Three properties a reader might expect of the view do not hold for the code, and the model proves where each breaks:
- **No clamping.** The slider index at core/map_base.py:129 is not clamped to the grid. The slider's maximum `x[0][-1]` selects column `size`, one past the last, so the redraw raises IndexError (`SliceIndex.SliderIndexAtMaximum`, `Plot3DView.SlideToMaximum`).
- **Truncation, not rounding.** The same line converts with `int()`, which truncates toward zero (`Builtins.Trunc`). A slider value just below a column's start selects the column before it.
- **Exclusivity only while presses alternate.** The slider and the animation do not both drive the plot as long as Stop is pressed only right after Start (`AnimationControl.AlternatingPressesExclusive`). Each Stop connects another slider callback (core/map_base.py:168), and Start disconnects only the one `self.cid` names (core/map_base.py:160). So Stop in the slider-driven state, followed by Start, leaves a callback connected while the animation runs (`AnimationControl.RepeatedStopBreaksExclusivity`).

## Left out

- Matplotlib figure, axes, labels, axis limits other than the z-limits, grid lines, and the construction of the Slider and Button widgets: these are UI library calls. The 2-D strategy `_plot2D` draws only, so it is left out, and the 3-D strategy is modelled only through its artifact array, its slider value and its callback bookkeeping.
- `plot_bifurcation_diagram`: it only sequences figure creation, `iterate_field` and the plotter, so it is left out.
- `FuncAnimation` timing (`interval=20`) and frame scheduling: the animation is reduced to whether its timer runs. Frames are the separate calls `AnimPlot(frame)`. `anim_plot`'s return value (the flattened artifacts, used by matplotlib for blitting) is not modelled.
- Matplotlib's Slider clamps to the range and snaps the value to `valstep`: not modelled. `SliderChanged` accepts any value, which covers every clamped one, including the maximum. The initial slider value is `x[0][middle_x]` before snapping.
- Matplotlib's callback registry: it calls every connected callback on a change. `SliderChanged` models one `update` run, since every connected callback is the same `update` and further runs redraw the same column.
- Plot3DView.Create: requires exactly two parameter grids of one shape with at least 1 row and 2 columns, and a window whose snapshots have that shape. The slider's `valstep` reads `x[0][1]`, and NumPy broadcasting of other shapes is not modelled.
- Floating point: progress values, index ratios and z-values are exact reals, so rounding in `i / iterations`, `width * p` and the index formulas is not modelled.
- The concrete maps in main.py and their `None` checks: the map is the uninterpreted total function `MapBase.iterate`, so an iteration that raises is not modelled.
- Python generator mechanics and the `__get__` descriptor binding of the printer: the generator is the sequence of values it yields plus its return value. `ProgressBar` returns the printer directly instead of a decorator that wraps the function.
- `MapBase._figure`, `bstart` and `bstop`: UI handles.
- Standard output: `print` appends to `Console.text`.
- Plot3DView.SliceView.StartAnim: runs the init function `clear_plot` at once. Matplotlib runs it when the figure is next drawn, so a change of `last_iters` in between is not modelled.
- Plot3DView.SliceView: the number of artifacts and the z-limits come from the window at creation, as in the source. An `iterate_field` with a different number of variables or grid shape afterwards is covered only through the IndexError case of `ShowColumn`. NumPy's broadcasting of a differently shaped array in `set_3d_properties` is not modelled.
- Maps.MapBase.IterateField: `last_iters` is a list of snapshots here. The source appends the tuple the map returned, and a map that mutated its arrays in place would alias snapshots. That aliasing is not modelled.
