# Wave simulation model

This project models `wave.py`, an interactive simulation of the damped two-dimensional wave equation on a 300 by 300 grid, in Dafny.

Each animation frame does four things:
- it advances the height field `z` and the velocity field by one explicit step of size 0.1;
- it advances the clock by 0.1;
- it overwrites every wave-source cell with the current source value;
- when the graph is on, it records the height at the selected point into a history bounded to 60 seconds (600 frames).

The step uses a discrete Laplacian made of four wrap-around shifts of the heights. It is followed by three clamps:
- velocity is zero at obstacles;
- height is zero at obstacles;
- height is zero on the outer ring (an absorbing boundary).

Mouse handlers paint and erase obstacles and sources with a square brush, and select the probed point. Buttons and text boxes reset the simulation, toggle the graph, choose the drawing tool and set the brush size.

The project is layered as follows:
- `Grids`: square grids as sequences of rows, wrap-around index arithmetic, and the bridge from a two-dimensional array to its grid of cells.
- `Wave`: the wave step as a function on grids, with its properties.
- `Brush`: brush editing of the two masks.
- `History`: the bounded amplitude history.
- `Sim`: the whole program state as a datatype. Every handler and the frame update are transitions on it. It also states the invariant every reachable state keeps.
- `WaveApp.Simulation`: a class holding the four grids as arrays, updated in place by loops as the program does. Each handler method and the frame methods are proved to produce exactly the state the matching `Sim` transition describes. The helper methods are proved against the `Wave`, `Brush` and `Grids` functions they compute.

## Model

| member | source | states |
|---|---|---|
| Wave.Roll | wave.py:30-33 | the rolled grid keeps the square shape; where cells go is stated by RollMovesCells and RollInverse |
| Wave.RollMovesCells | wave.py:29-33 | a roll by `shift` along rows (columns) moves cell (r, c) to row (column) r + shift modulo n |
| Wave.RollInverse | wave.py:29-33 | rolling back by the same shift restores the grid |
| Wave.Laplacian | wave.py:29-35 | the Laplacian keeps the square shape; its cells are stated by LaplacianOfNeighbours |
| Wave.LaplacianOfNeighbours | wave.py:29-35 | the Laplacian at (r, c) is the sum of the four axis neighbours, indices wrapping modulo n, less four times the cell |
| Wave.RollsMakeWrappedLaplacian | wave.py:29-35 | the sum of the four rolled copies less four times the grid equals the cell-by-cell neighbour form, as whole grids |
| Wave.Mask | wave.py:36 | the masked grid keeps the square shape; its effect in the step is stated by MaskedLaplacianIsRedundant and StepFollowsWaveEquation |
| Wave.AdvanceVelocity | wave.py:39-40 | the velocity grid keeps the square shape; the per-cell formula of wave.py:39 is `Wave.VelocityStep`, and the cells are stated by StepFollowsWaveEquation and StepPinsObstacles |
| Wave.AdvanceHeight | wave.py:43-44 | the height grid keeps the square shape; its cells are stated by StepFollowsWaveEquation and StepPinsObstacles |
| Wave.AbsorbBoundary | wave.py:59-62 | the height grid keeps the square shape; the zero ring is stated by StepAbsorbsBoundary |
| Wave.Step | wave.py:27-64 | heights and velocities keep the square shape; their cells are stated by StepAbsorbsBoundary, StepPinsObstacles and StepFollowsWaveEquation, and checked against a zero-padded reference by HeightsIgnoreWrapAround |
| Wave.StepAbsorbsBoundary | wave.py:59-62 | after a step every cell of the outer ring has height zero, whatever the masks |
| Wave.StepPinsObstacles | wave.py:36-44 | after a step every obstacle cell has velocity zero and height zero |
| Wave.StepFollowsWaveEquation | wave.py:29-43 | off obstacles the new velocity is v + (c² lap − attenuation v) dt with the wrap-around Laplacian; off obstacles and off the ring the new height is z + v′ dt |
| Wave.MaskedLaplacianIsRedundant | wave.py:36-40 | zeroing the Laplacian at obstacles does not change the velocity update, since obstacle velocities are zeroed afterwards |
| Wave.WrapOnlyOnBoundary | wave.py:29-35 | off the outer ring the wrap-around Laplacian equals the zero-padded one |
| Wave.HeightsIgnoreWrapAround | wave.py:29-62 | the step's heights equal those computed with a zero-padded Laplacian; velocities differ at most on the ring |
| Wave.FlatFieldIsFixedPoint | wave.py:27-64 | a flat field at rest stays flat and at rest for any obstacles, attenuation, dt and speed |
| Wave.ImpulseFirstStep | wave.py:27-64 | a unit impulse at the centre of a 5 by 5 field gives centre velocity −0.4 and height 0.96, and each axis neighbour velocity 0.1 and height 0.01 |
| Grids.Fill | wave.py:142-145 | every cell of the array holds the given value afterwards |
| Grids.NewGrid | wave.py:20-23 | a fresh n by n array holds the given value in every cell |
| Brush.Edit | wave.py:113-128 | both masks stay the grid's shape; the per-cell dispatch of wave.py:121-128 is `Brush.PaintObstacle` and `Brush.PaintSource`, and the cells are stated by the Paint, Erase and EditWithoutEffect lemmas |
| Brush.PaintObstaclesSetsBrush | wave.py:118-123 | button 1 with the obstacle tool adds exactly the clipped brush square to the obstacle mask and leaves the source mask unchanged |
| Brush.PaintSourcesSetsBrush | wave.py:118-125 | button 1 with the source tool adds exactly the clipped brush square to the source mask and leaves the obstacle mask unchanged |
| Brush.EraseClearsBrush | wave.py:126-128 | button 3 removes exactly the clipped brush square from both masks |
| Brush.EditWithoutEffect | wave.py:113-128 | a pointer off the axes or off the grid, or a button other than 1 and 3, changes neither mask |
| Brush.BrushTwoMarksThreeByThree | wave.py:118-123 | brush size 2 at (10, 10) on an empty grid marks exactly rows and columns 9 to 11 |
| History.Window | wave.py:189-191 | the kept history is a suffix of length min(length, cap) |
| History.PyTail | wave.py:191 | Python's tail slice of length k: exactly k entries when 0 < k <= length, the whole list when k is 0 or longer than the list, and always a suffix of the list |
| History.TrimAsWritten | wave.py:190-191 | the cut as written keeps a suffix of the list |
| History.TrimAsWrittenIsWindow | wave.py:189-191 | for every positive cap the cut as written keeps exactly the most recent cap entries |
| History.TrimAsWrittenIgnoresZeroCap | wave.py:189-191 | with cap 0 the cut as written returns every list unchanged |
| History.ZeroCapKeepsEverything | wave.py:185-191 | with cap 0, recording any series with the cut as written leaves the old history followed by the whole series, one entry longer per recording |
| History.Record | wave.py:185-191 | a recording has min(length + 1, cap) entries, never more than the cap; these are the most recent entries of the history followed by the recorded value, and the last one is the recorded value |
| History.RecordAllKeepsLatest | wave.py:185-191 | recording a series one value at a time keeps the most recent cap entries of history plus series, in order, never more than cap |
| History.WindowOfAppend | wave.py:189-191 | cutting a prefix to the window first does not change the window of the whole |
| Sim.MaxHistoryLength | wave.py:189 | the cap is the largest count of 0.1 s frames within the duration |
| Sim.HistoryCapIsSixHundred | wave.py:17 | the shipped 60 s history holds 600 entries |
| Sim.Init | wave.py:8-23 | the starting state satisfies the invariant |
| Sim.UpdateGrid | wave.py:113-128 | brushing keeps the invariant and changes neither the fields nor the held button |
| Sim.OnMousePress | wave.py:89-103 | a press keeps the invariant |
| Sim.PressStartsDrawing | wave.py:92-103 | a left or right press over the axes holds that button, starts drawing and brushes the masks at once with `Brush.Edit`; heights, velocities and the selected point are unchanged |
| Sim.PressOffAxes | wave.py:92 | a press outside the wave axes leaves the state unchanged |
| Sim.MiddlePressSelects | wave.py:99-102 | a middle press selects (y, x) exactly when it is inside the grid, and neither starts nor stops drawing |
| Sim.OnMouseRelease | wave.py:106-110 | after a release the mouse is not drawing and no button is held |
| Sim.OnMouseMotion | wave.py:131-134 | motion keeps the invariant; what it does to the masks is stated by MotionBrushesWhileDrawing |
| Sim.MotionBrushesWhileDrawing | wave.py:131-134 | while drawing, motion brushes the masks with `Brush.Edit` at the pointer with the held button and active tool and changes nothing else; without drawing it changes nothing |
| Sim.DragPaintsObstacles | wave.py:113-134 | dragging with button 1 and the obstacle tool over a grid cell adds exactly the clipped brush square to the obstacles and leaves the sources unchanged |
| Sim.NoEditsAfterRelease | wave.py:131-134 | once the button is released, motion changes nothing |
| Sim.ResetWave | wave.py:137-145 | reset keeps the invariant |
| Sim.ResetClears | wave.py:137-145 | reset zeroes heights, velocities and the clock, clears both masks and the history, and keeps the point, brush, tools, graph flag and mouse state |
| Sim.ResetIdempotent | wave.py:137-145 | resetting twice is resetting once |
| Sim.ToggleGraph | wave.py:156-159 | the graph flag flips and the invariant holds |
| Sim.ToggleGraphTwice | wave.py:156-159 | toggling twice restores the state |
| Sim.BrushSizeFromText | wave.py:219-226 | the stored size is at least 1, and it is 1 or the parsed number |
| Sim.BrushSizeCases | wave.py:219-226 | the size is the parsed number when it is at least 1, and 1 when it is smaller or the text is not a number |
| Sim.UpdateBrushSize | wave.py:219-226 | the brush size is at least 1 afterwards |
| Sim.UpdateRadio | wave.py:272-278 | a radio click keeps exactly one tool active |
| Sim.RadioSelectsOneTool | wave.py:272-278 | "Obstacles" selects only the obstacle tool, "Wave Source" only the source tool, any other label changes nothing |
| Sim.ForceSources | wave.py:182 | the result has the grid's shape |
| Sim.Tick | wave.py:173-191 | a frame keeps the grid shape, keeps the selected point in the grid, and keeps the invariant |
| Sim.TickHeights | wave.py:177-182 | after a frame source cells hold the source value, even on the ring or on obstacles; other ring and obstacle cells are zero; other cells are z + v′ dt; the velocities are the wave step's everywhere, source cells included, and zero at obstacles |
| Sim.TickKeepsControls | wave.py:173-208 | a frame leaves the masks, the selected point, the brush size, the tools, the graph flag and the mouse state unchanged |
| Sim.TickRecordsHistory | wave.py:179-191 | a frame advances the clock by 0.1; with the graph on it appends the new height at the selected point and keeps the latest 600 entries; with the graph off the history is unchanged |
| Sim.ShippedTrimMatchesRecord | wave.py:185-191 | with the shipped duration the cut as written equals the model's window |
| Sim.Display | wave.py:202-208 | the image has the grid's shape |
| Sim.DisplayMarks | wave.py:202-208 | the image shows 1.0 at the selected point when the graph is on, −1 at obstacles, and the height elsewhere |
| Sim.Apply | wave.py:314-322 | every handler and frame keeps the invariant |
| Sim.Run | wave.py:314-322 | any series of events keeps the invariant |
| Sim.ReachableStatesKeepInvariant | wave.py:185-191 | every reachable state keeps the invariant; in particular the history never exceeds 600 entries |
| WaveApp.Simulation.constructor | wave.py:8-23 | the new object's state is the starting state |
| WaveApp.Simulation.LaplacianAt | wave.py:29-36 | the value is the masked Laplacian of the heights at that cell |
| WaveApp.Simulation.LaplacianRow | wave.py:29-36 | exactly one row of the array takes the masked Laplacian; the other rows are unchanged |
| WaveApp.Simulation.ComputeLaplacian | wave.py:29-36 | the fresh array holds the wrap-around Laplacian in its cell-by-cell form, zeroed at obstacles |
| WaveApp.Simulation.AdvanceVelocity | wave.py:39-40 | the velocity array becomes the damped update, zero at obstacles |
| WaveApp.Simulation.AdvanceHeight | wave.py:43-44 | the height array becomes the old heights plus velocity times dt, zero at obstacles |
| WaveApp.Simulation.ClearRow | wave.py:59-60 | exactly the given row of heights is zero; all other cells are unchanged |
| WaveApp.Simulation.ClearColumn | wave.py:61-62 | exactly the given column of heights is zero; all other cells are unchanged |
| WaveApp.Simulation.AbsorbBoundary | wave.py:59-62 | the heights become the old heights with the outer ring zeroed |
| WaveApp.Simulation.UpdateWave | wave.py:27-64 | the arrays, updated in place, hold exactly the heights and velocities of `Wave.Step` |
| WaveApp.Simulation.ForceSources | wave.py:182 | the height array becomes `Sim.ForceSources` of the old heights |
| WaveApp.Simulation.StepFields | wave.py:177-182 | the new state has the heights and velocities of the wave step, followed by the source overwrite; nothing else changes |
| WaveApp.Simulation.AdvanceClock | wave.py:179 | the clock advances by 0.1 and nothing else changes |
| WaveApp.Simulation.RecordProbe | wave.py:185-191 | with the graph on, the history becomes the recording of the selected height; with it off, the history is unchanged; nothing else changes |
| WaveApp.Simulation.Advance | wave.py:173-191 | the new state is `Sim.Tick` of the old state, and the invariant is kept |
| WaveApp.Simulation.MaskedRow | wave.py:203-204 | exactly one row of the image takes the heights with −1 at obstacles; the other rows are unchanged |
| WaveApp.Simulation.DisplayImage | wave.py:202-208 | the fresh image equals `Sim.Display` of the state |
| WaveApp.Simulation.Update | wave.py:173-212 | the new state is `Sim.Tick` of the old state, and the returned image is its display |
| WaveApp.Simulation.BrushCell | wave.py:120-128 | exactly one cell of each mask takes the painted value; all other cells are unchanged |
| WaveApp.Simulation.PaintBrush | wave.py:118-128 | both mask arrays become the masks of `Brush.Edit` at the pointer |
| WaveApp.Simulation.UpdateGrid | wave.py:113-128 | the new state is `Sim.UpdateGrid` of the old state |
| WaveApp.Simulation.OnMousePress | wave.py:89-103 | the new state is `Sim.OnMousePress` of the old state, and the invariant is kept |
| WaveApp.Simulation.OnMouseRelease | wave.py:106-110 | the new state is `Sim.OnMouseRelease` of the old state |
| WaveApp.Simulation.OnMouseMotion | wave.py:131-134 | the new state is `Sim.OnMouseMotion` of the old state |
| WaveApp.Simulation.ResetWave | wave.py:137-145 | the new state is `Sim.ResetWave` of the old state |
| WaveApp.Simulation.ToggleGraph | wave.py:156-159 | the new state is `Sim.ToggleGraph` of the old state |
| WaveApp.Simulation.UpdateBrushSize | wave.py:219-226 | the new state is `Sim.UpdateBrushSize` of the old state |
| WaveApp.Simulation.UpdateRadio | wave.py:272-278 | the new state is `Sim.UpdateRadio` of the old state |

## Left out

- Drawing: the matplotlib figure, image, graph line, axis rescaling, layout and button labels. These are display side effects. The model keeps only the state they show, plus the image array handed to the renderer (`Sim.Display`).
- Floating point: heights, velocities, time and parameters are exact reals. Rounding and overflow are not modelled.
- Sliders: the frequency, amplitude, speed and attenuation sliders (`update_wave_properties`, `update_medium_properties`) only store slider values. Their effect on a frame enters as the parameters `attenuation`, `c` and `sourceValue` of `Sim.Tick`.
- Source value: the sine is not computed. `sourceValue` stands for amplitude times the sine of 2π · frequency · time at the new time.
- Pointer coordinates: the pointer cell arrives as integers. The truncating conversion of the float pointer position is not modelled. Python truncates toward zero, so a position just left of or above the grid also lands on cell 0.
- Brush text: `int(text)` parsing is not modelled. The text arrives already parsed, as `Some(n)`, or as `None` when parsing raises `ValueError`.
- Initial mouse button: before the first press `mouse_button` is undefined in the source. A press with a button other than 1 or 3 inside the grid, before any left or right press or any release, ends in a `NameError` inside `update_grid`. The model starts with no button held, and then such a press edits nothing (a middle press still selects the point).
- History entries: the history stores heights only, as the code does, not time/value pairs. Its x-axis is recomputed from the length at draw time.
- Wrap-around: only ring cells have wrapped neighbours (wave.py:29-35), and the absorbing boundary then zeroes their heights (wave.py:59-62). `Wave.HeightsIgnoreWrapAround` proves that, within one step, the wrap-around never reaches the heights; it compares one step from the same heights and velocities, not a whole run.
- WaveApp.Simulation.ComputeLaplacian: it computes each cell from its four wrapped neighbours in one pass. The source builds four rolled copies and adds them. `Wave.RollsMakeWrappedLaplacian` proves that the two grids are equal, and `WaveApp.Simulation.UpdateWave` uses that proof.
- Animation scheduling: the frame count, the 20 ms interval and the event loop are not modelled. A frame is one `Sim.Frame` event, and `Sim.Run` applies any interleaving of events.

## Findings

| source | as written | input that shows it | evidently intended | confidence | as-written member | corrected member |
|---|---|---|---|---|---|---|
| wave.py:189-191 | the history is cut with a tail slice of length `max_history_length`, so a cap of 0 gives the slice `[-0:]`, which is the whole list | a history duration below 0.1 s, so the cap is 0: every cut returns the list unchanged, and after n recordings the history has grown by n entries | keep at most `max_history_length` entries; with a cap of 0, keep none | low: the shipped duration is 60 s (cap 600), where both agree; not executed | History.ZeroCapKeepsEverything | History.RecordAllKeepsLatest |
