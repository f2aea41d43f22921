/**
 * The simulation state of wave.py and what each handler and each animation
 * frame does to it, as functions from state to state. The imperative
 * `Simulation` class is proved to follow these functions.
 */
module Sim {
  import opened Grids
  import opened Optional
  import Wave
  import Brush
  import History

  const GRID_SIZE: nat := 300
  /** The integration step; also the amount `time` advances per frame. */
  const DT: real := 0.1
  /** Seconds of amplitude history kept for the graph. */
  const HISTORY_DURATION: real := 60.0

  /** A pointer event over the figure: whether it is over the wave axes, the cell column x and row y, and the button. */
  datatype PointerEvent = PointerEvent(inAxes: bool, x: int, y: int, button: int)

  /** The module-level state of wave.py that the handlers and the frame update read and write. */
  datatype State = State(
    z: Grid<real>,
    velocity: Grid<real>,
    obstacles: Grid<bool>,
    waveSources: Grid<bool>,
    time: real,
    amplitudeHistory: seq<real>,
    selectedPoint: (int, int),
    brushSize: int,
    drawObstacles: bool,
    drawWaveSource: bool,
    graphEnabled: bool,
    drawing: bool,
    mouseButton: Option<int>)

  /** The history cap: the duration over the frame step, truncated toward zero (the floor, for a non-negative duration). */
  function MaxHistoryLength(duration: real): (cap: nat)
    requires duration >= 0.0
    ensures cap as real * DT <= duration < (cap as real + 1.0) * DT
  {
    (duration / DT).Floor
  }

  /** Sixty seconds of history at 0.1 s per frame is 600 entries. */
  lemma HistoryCapIsSixHundred()
    ensures MaxHistoryLength(HISTORY_DURATION) == 600
  {
  }

  predicate InGrid(row: int, col: int) {
    0 <= row < GRID_SIZE && 0 <= col < GRID_SIZE
  }

  /** All four fields are GRID_SIZE by GRID_SIZE. */
  predicate Shaped(s: State) {
    && IsSquare(s.z, GRID_SIZE) && IsSquare(s.velocity, GRID_SIZE)
    && IsSquare(s.obstacles, GRID_SIZE) && IsSquare(s.waveSources, GRID_SIZE)
  }

  /** Shaped, and the selected point is a cell of the grid. */
  predicate WellFormed(s: State) {
    Shaped(s) && InGrid(s.selectedPoint.0, s.selectedPoint.1)
  }

  /**
   * What every reachable state satisfies: the brush size is at least 1,
   * exactly one drawing tool is active, the mouse is drawing exactly when a
   * drawing button (1 or 3) is held, and the history is within its cap.
   */
  predicate Inv(s: State) {
    && WellFormed(s)
    && s.brushSize >= 1
    && s.drawObstacles != s.drawWaveSource
    && s.drawing == s.mouseButton.Some?
    && (s.mouseButton.Some? ==> s.mouseButton.value == 1 || s.mouseButton.value == 3)
    && |s.amplitudeHistory| <= MaxHistoryLength(HISTORY_DURATION)
  }

  /** The state when the program starts: flat grid at rest, empty masks and history, obstacle tool, graph on. */
  function Init(): (s: State)
    ensures Inv(s)
  {
    State(
      Constant(GRID_SIZE, 0.0), Constant(GRID_SIZE, 0.0), Constant(GRID_SIZE, false), Constant(GRID_SIZE, false),
      0.0, [], (GRID_SIZE / 2, GRID_SIZE / 2), 1, true, false, true, false, None)
  }

  /** `update_grid(event)`: brush the masks at the pointer with the held button and active tool. */
  function UpdateGrid(s: State, e: PointerEvent): (t: State)
    requires Shaped(s)
    ensures Shaped(t) && (Inv(s) ==> Inv(t))
    ensures t.z == s.z && t.velocity == s.velocity && t.mouseButton == s.mouseButton
  {
    var m := Brush.Edit(s.obstacles, s.waveSources, e.inAxes, e.x, e.y, s.brushSize,
                        s.mouseButton, s.drawObstacles, s.drawWaveSource);
    s.(obstacles := m.obstacles, waveSources := m.sources)
  }

  /**
   * `on_mouse_press`: over the axes, button 1 or 3 starts drawing with that
   * button, button 2 selects the pointer cell (row y, column x) when it is
   * inside the grid; then the grid is brushed at once.
   */
  function OnMousePress(s: State, e: PointerEvent): (t: State)
    requires Shaped(s)
    ensures Shaped(t) && (Inv(s) ==> Inv(t))
  {
    if !e.inAxes then s
    else
      var pressed :=
        if e.button == 1 then s.(drawing := true, mouseButton := Some(1))
        else if e.button == 3 then s.(drawing := true, mouseButton := Some(3))
        else if e.button == 2 && InGrid(e.y, e.x) then s.(selectedPoint := (e.y, e.x))
        else s;
      UpdateGrid(pressed, e)
  }

  /** `on_mouse_release`: stop drawing, forget the button. */
  function OnMouseRelease(s: State): (t: State)
    ensures !t.drawing && t.mouseButton == None
    ensures Inv(s) ==> Inv(t)
  {
    s.(drawing := false, mouseButton := None)
  }

  /** `on_mouse_motion`: while drawing, brush the grid at the pointer. */
  function OnMouseMotion(s: State, e: PointerEvent): (t: State)
    requires Shaped(s)
    ensures Shaped(t) && (Inv(s) ==> Inv(t))
  {
    if s.drawing then UpdateGrid(s, e) else s
  }

  /** `reset_wave`: flat grid at rest, masks and history cleared, clock at zero. */
  function ResetWave(s: State): (t: State)
    ensures Inv(s) ==> Inv(t)
  {
    s.(time := 0.0, amplitudeHistory := [],
       z := Constant(GRID_SIZE, 0.0), velocity := Constant(GRID_SIZE, 0.0),
       obstacles := Constant(GRID_SIZE, false), waveSources := Constant(GRID_SIZE, false))
  }

  /** `toggle_graph`. */
  function ToggleGraph(s: State): (t: State)
    ensures t.graphEnabled != s.graphEnabled
    ensures Inv(s) ==> Inv(t)
  {
    s.(graphEnabled := !s.graphEnabled)
  }

  /**
   * The brush size `update_brush_size` stores for the submitted text:
   * `parsed` is the text read as an integer, or None when it is not one.
   */
  function BrushSizeFromText(parsed: Option<int>): (b: int)
    ensures b >= 1
    ensures b == 1 || parsed == Some(b)
  {
    match parsed
    case None => 1
    case Some(n) => if n < 1 then 1 else n
  }

  /** `update_brush_size(text)`. */
  function UpdateBrushSize(s: State, parsed: Option<int>): (t: State)
    ensures t.brushSize >= 1
    ensures Inv(s) ==> Inv(t)
  {
    s.(brushSize := BrushSizeFromText(parsed))
  }

  /** `update_radio(label)`, `clicked` being the label: select the obstacle tool or the source tool; other labels change nothing. */
  function UpdateRadio(s: State, clicked: string): (t: State)
    ensures Inv(s) ==> Inv(t)
  {
    if clicked == "Obstacles" then s.(drawObstacles := true, drawWaveSource := false)
    else if clicked == "Wave Source" then s.(drawObstacles := false, drawWaveSource := true)
    else s
  }

  /** Every source cell overwritten with `value`; the other cells keep their height. */
  function ForceSources(z: Grid<real>, sources: Grid<bool>, value: real): (z': Grid<real>)
    requires IsSquare(z, |z|) && IsSquare(sources, |z|)
    ensures IsSquare(z', |z|)
  {
    var n := |z|;
    seq(n, r requires 0 <= r < n => seq(n, c requires 0 <= c < n => if sources[r][c] then value else z[r][c]))
  }

  /**
   * The state part of the animation frame `update`: one wave step with the
   * current attenuation and speed `c`, the clock advanced by 0.1, every
   * source cell overwritten with `sourceValue` (the caller's
   * amplitude times the sine of 2 pi frequency time), and, with the graph on, the
   * height at the selected point recorded into the bounded history.
   */
  function Tick(s: State, attenuation: real, c: real, sourceValue: real): (t: State)
    requires WellFormed(s)
    ensures WellFormed(t) && (Inv(s) ==> Inv(t))
  {
    var f := Wave.Step(s.z, s.velocity, s.obstacles, attenuation, DT, c);
    var z := ForceSources(f.height, s.waveSources, sourceValue);
    var history :=
      if s.graphEnabled
      then History.Record(s.amplitudeHistory, z[s.selectedPoint.0][s.selectedPoint.1], MaxHistoryLength(HISTORY_DURATION))
      else s.amplitudeHistory;
    s.(z := z, velocity := f.velocity, time := s.time + DT, amplitudeHistory := history)
  }

  /**
   * The image handed to the renderer after a frame: a copy of the heights,
   * -1 at obstacles, and 1.0 at the selected point when the graph is on.
   */
  function Display(s: State): (image: Grid<real>)
    requires WellFormed(s)
    ensures IsSquare(image, GRID_SIZE)
  {
    var masked := seq(GRID_SIZE, r requires 0 <= r < GRID_SIZE => seq(GRID_SIZE, c requires 0 <= c < GRID_SIZE =>
      if s.obstacles[r][c] then -1.0 else s.z[r][c]));
    if s.graphEnabled
    then masked[s.selectedPoint.0 := masked[s.selectedPoint.0][s.selectedPoint.1 := 1.0]]
    else masked
  }

  /** Everything that can happen to the state between two observations. */
  datatype Event =
    | Press(e: PointerEvent)
    | Release
    | Motion(e: PointerEvent)
    | Reset
    | ToggleGraphButton
    | BrushText(parsed: Option<int>)
    | Radio(clicked: string)
    | Frame(attenuation: real, c: real, sourceValue: real)

  function Apply(s: State, ev: Event): (t: State)
    requires Inv(s)
    ensures Inv(t)
  {
    match ev
    case Press(e) => OnMousePress(s, e)
    case Release => OnMouseRelease(s)
    case Motion(e) => OnMouseMotion(s, e)
    case Reset => ResetWave(s)
    case ToggleGraphButton => ToggleGraph(s)
    case BrushText(parsed) => UpdateBrushSize(s, parsed)
    case Radio(clicked) => UpdateRadio(s, clicked)
    case Frame(attenuation, c, sourceValue) => Tick(s, attenuation, c, sourceValue)
  }

  /** The state after a series of events; every state reached this way satisfies the invariant. */
  function Run(s: State, evs: seq<Event>): (t: State)
    requires Inv(s)
    ensures Inv(t)
    decreases |evs|
  {
    if evs == [] then s else Run(Apply(s, evs[0]), evs[1..])
  }

  /**
   * After a frame every source cell holds the forced value, even on the
   * absorbing ring or on an obstacle, since the overwrite comes after the
   * clamps; every other cell keeps the height of the wave step: zero on the
   * ring and at obstacles, `z + v' dt` elsewhere. The velocities are those
   * of the wave step everywhere, source cells included; at obstacles they are zero.
   */
  lemma TickHeights(s: State, attenuation: real, c: real, sourceValue: real)
    requires WellFormed(s)
    ensures var t, f := Tick(s, attenuation, c, sourceValue), Wave.Step(s.z, s.velocity, s.obstacles, attenuation, DT, c);
      forall r, col :: 0 <= r < GRID_SIZE && 0 <= col < GRID_SIZE ==>
        && (s.waveSources[r][col] ==> t.z[r][col] == sourceValue)
        && (!s.waveSources[r][col] && (Wave.OnBoundary(r, col, GRID_SIZE) || s.obstacles[r][col]) ==> t.z[r][col] == 0.0)
        && (!s.waveSources[r][col] && !Wave.OnBoundary(r, col, GRID_SIZE) && !s.obstacles[r][col] ==>
              t.z[r][col] == s.z[r][col] + f.velocity[r][col] * DT)
        && (s.obstacles[r][col] ==> t.velocity[r][col] == 0.0)
    ensures var t, f := Tick(s, attenuation, c, sourceValue), Wave.Step(s.z, s.velocity, s.obstacles, attenuation, DT, c);
      t.velocity == f.velocity
  {
    Wave.StepAbsorbsBoundary(s.z, s.velocity, s.obstacles, attenuation, DT, c);
    Wave.StepPinsObstacles(s.z, s.velocity, s.obstacles, attenuation, DT, c);
  }

  /**
   * A frame changes only the fields, the clock and the history: the masks,
   * the selected point, the brush size, the tools, the graph flag and the
   * mouse state are as before.
   */
  lemma TickKeepsControls(s: State, attenuation: real, c: real, sourceValue: real)
    requires WellFormed(s)
    ensures var t := Tick(s, attenuation, c, sourceValue);
      && t.obstacles == s.obstacles && t.waveSources == s.waveSources
      && t.selectedPoint == s.selectedPoint && t.brushSize == s.brushSize
      && t.drawObstacles == s.drawObstacles && t.drawWaveSource == s.drawWaveSource
      && t.graphEnabled == s.graphEnabled && t.drawing == s.drawing && t.mouseButton == s.mouseButton
  {
  }

  /**
   * With the graph on, a frame appends the selected point's new height and
   * keeps the most recent 600 entries; with the graph off the history is
   * left as it was. The clock advances by 0.1 either way.
   */
  lemma TickRecordsHistory(s: State, attenuation: real, c: real, sourceValue: real)
    requires WellFormed(s)
    ensures var t := Tick(s, attenuation, c, sourceValue);
      var probe := t.z[s.selectedPoint.0][s.selectedPoint.1];
      && t.time == s.time + DT
      && (s.graphEnabled ==>
            && t.amplitudeHistory == History.Window(s.amplitudeHistory + [probe], 600)
            && t.amplitudeHistory[|t.amplitudeHistory| - 1] == probe)
      && (!s.graphEnabled ==> t.amplitudeHistory == s.amplitudeHistory)
  {
    HistoryCapIsSixHundred();
  }

  /** With the shipped history duration the cut as the source writes it keeps the same entries as the model's. */
  lemma ShippedTrimMatchesRecord(h: seq<real>, x: real)
    ensures History.TrimAsWritten(h + [x], MaxHistoryLength(HISTORY_DURATION))
         == History.Record(h, x, MaxHistoryLength(HISTORY_DURATION))
  {
    HistoryCapIsSixHundred();
    History.TrimAsWrittenIsWindow(h + [x], 600);
  }

  /**
   * Reset zeroes heights, velocities and the clock and clears both masks
   * and the history; the selected point, brush size, tools, graph flag and
   * mouse state are kept.
   */
  lemma ResetClears(s: State)
    ensures var t := ResetWave(s);
      && (forall r, c :: 0 <= r < GRID_SIZE && 0 <= c < GRID_SIZE ==>
            t.z[r][c] == 0.0 && t.velocity[r][c] == 0.0 && !t.obstacles[r][c] && !t.waveSources[r][c])
      && t.time == 0.0 && t.amplitudeHistory == []
      && t.selectedPoint == s.selectedPoint && t.brushSize == s.brushSize
      && t.drawObstacles == s.drawObstacles && t.drawWaveSource == s.drawWaveSource
      && t.graphEnabled == s.graphEnabled && t.drawing == s.drawing && t.mouseButton == s.mouseButton
  {
  }

  /** Resetting twice is resetting once. */
  lemma ResetIdempotent(s: State)
    ensures ResetWave(ResetWave(s)) == ResetWave(s)
  {
  }

  /** Toggling the graph twice restores the state. */
  lemma ToggleGraphTwice(s: State)
    ensures ToggleGraph(ToggleGraph(s)) == s
  {
  }

  /** The stored brush size is the parsed number when it is at least 1, and 1 when it is smaller or the text is not a number. */
  lemma BrushSizeCases(parsed: Option<int>)
    ensures parsed.Some? && parsed.value >= 1 ==> BrushSizeFromText(parsed) == parsed.value
    ensures parsed.None? || parsed.value < 1 ==> BrushSizeFromText(parsed) == 1
  {
  }

  /** After a click on either radio label exactly that tool is active; any other label changes nothing. */
  lemma RadioSelectsOneTool(s: State, clicked: string)
    ensures clicked == "Obstacles" ==> UpdateRadio(s, clicked).drawObstacles && !UpdateRadio(s, clicked).drawWaveSource
    ensures clicked == "Wave Source" ==> !UpdateRadio(s, clicked).drawObstacles && UpdateRadio(s, clicked).drawWaveSource
    ensures clicked != "Obstacles" && clicked != "Wave Source" ==> UpdateRadio(s, clicked) == s
  {
  }

  /**
   * A left or right press over the axes holds that button, starts drawing
   * and brushes the masks at once with it; the fields and the selected
   * point are unchanged.
   */
  lemma PressStartsDrawing(s: State, e: PointerEvent)
    requires Shaped(s) && e.inAxes && (e.button == 1 || e.button == 3)
    ensures var t := OnMousePress(s, e);
      var m := Brush.Edit(s.obstacles, s.waveSources, true, e.x, e.y, s.brushSize,
                          Some(e.button), s.drawObstacles, s.drawWaveSource);
      && t.drawing && t.mouseButton == Some(e.button)
      && t.obstacles == m.obstacles && t.waveSources == m.sources
      && t.z == s.z && t.velocity == s.velocity && t.selectedPoint == s.selectedPoint
  {
  }

  /** A press outside the wave axes changes nothing. */
  lemma PressOffAxes(s: State, e: PointerEvent)
    requires Shaped(s) && !e.inAxes
    ensures OnMousePress(s, e) == s
  {
  }

  /**
   * A middle-button press over the axes selects the pointer cell (row y,
   * column x) only when it is inside the grid; it neither starts nor stops
   * drawing.
   */
  lemma MiddlePressSelects(s: State, x: int, y: int)
    requires Shaped(s)
    ensures var t := OnMousePress(s, PointerEvent(true, x, y, 2));
      && t.selectedPoint == (if InGrid(y, x) then (y, x) else s.selectedPoint)
      && t.drawing == s.drawing && t.mouseButton == s.mouseButton
  {
  }

  /**
   * While drawing, motion brushes the masks at the pointer with the held
   * button and the active tool, and changes nothing else; without drawing
   * it changes nothing at all.
   */
  lemma MotionBrushesWhileDrawing(s: State, e: PointerEvent)
    requires Shaped(s)
    ensures var m := Brush.Edit(s.obstacles, s.waveSources, e.inAxes, e.x, e.y, s.brushSize,
                                s.mouseButton, s.drawObstacles, s.drawWaveSource);
      s.drawing ==> OnMouseMotion(s, e) == s.(obstacles := m.obstacles, waveSources := m.sources)
    ensures !s.drawing ==> OnMouseMotion(s, e) == s
  {
  }

  /**
   * Dragging with button 1 and the obstacle tool over a grid cell adds
   * exactly the clipped brush square around it to the obstacles and leaves
   * the sources as they were.
   */
  lemma DragPaintsObstacles(s: State, e: PointerEvent)
    requires Shaped(s) && s.drawing && s.mouseButton == Some(1) && s.drawObstacles
    requires e.inAxes && InGrid(e.y, e.x)
    ensures var t := OnMouseMotion(s, e);
      && (forall r, c :: 0 <= r < GRID_SIZE && 0 <= c < GRID_SIZE ==>
            t.obstacles[r][c] == (s.obstacles[r][c] || Brush.InBrush(r, c, e.x, e.y, s.brushSize)))
      && t.waveSources == s.waveSources
  {
    Brush.PaintObstaclesSetsBrush(s.obstacles, s.waveSources, e.x, e.y, s.brushSize, s.drawWaveSource);
  }

  /** Once the button is released, moving the pointer edits nothing. */
  lemma NoEditsAfterRelease(s: State, e: PointerEvent)
    requires Shaped(s)
    ensures OnMouseMotion(OnMouseRelease(s), e) == OnMouseRelease(s)
  {
  }

  /**
   * The display image shows 1.0 at the selected point when the graph is on,
   * otherwise -1 at obstacles and the height everywhere else.
   */
  lemma DisplayMarks(s: State)
    requires WellFormed(s)
    ensures forall r, c :: 0 <= r < GRID_SIZE && 0 <= c < GRID_SIZE ==>
      Display(s)[r][c] ==
        if s.graphEnabled && (r, c) == s.selectedPoint then 1.0
        else if s.obstacles[r][c] then -1.0
        else s.z[r][c]
  {
  }

  /** Every state reachable from the start satisfies the invariant, so in particular the history never exceeds 600 entries. */
  lemma ReachableStatesKeepInvariant(evs: seq<Event>)
    ensures Inv(Run(Init(), evs))
    ensures |Run(Init(), evs).amplitudeHistory| <= 600
  {
    HistoryCapIsSixHundred();
  }
}
