/**
 * The simulation as wave.py runs it: the four grids are arrays updated in
 * place, the scalars and the history are fields the handlers reassign.
 * Every operation is proved to change the state exactly as the matching
 * function of module Sim says.
 */
module WaveApp {
  import opened Grids
  import opened Optional
  import Wave
  import Sim
  import History
  import Brush

  class Simulation {
    const z: array2<real>
    const velocity: array2<real>
    const obstacles: array2<bool>
    const waveSources: array2<bool>
    var time: real
    var amplitudeHistory: seq<real>
    var selectedPoint: (int, int)
    var brushSize: int
    var drawObstacles: bool
    var drawWaveSource: bool
    var graphEnabled: bool
    var drawing: bool
    var mouseButton: Option<int>

    /** The four arrays are GRID_SIZE by GRID_SIZE, and the two of each element type are distinct. */
    predicate Shaped() {
      && z.Length0 == Sim.GRID_SIZE && z.Length1 == Sim.GRID_SIZE
      && velocity.Length0 == Sim.GRID_SIZE && velocity.Length1 == Sim.GRID_SIZE
      && obstacles.Length0 == Sim.GRID_SIZE && obstacles.Length1 == Sim.GRID_SIZE
      && waveSources.Length0 == Sim.GRID_SIZE && waveSources.Length1 == Sim.GRID_SIZE
      && z != velocity && obstacles != waveSources
    }

    /** The state as a value. */
    ghost function View(): Sim.State
      reads this, z, velocity, obstacles, waveSources
    {
      Sim.State(
        Cells(z), Cells(velocity), Cells(obstacles), Cells(waveSources),
        time, amplitudeHistory, selectedPoint, brushSize,
        drawObstacles, drawWaveSource, graphEnabled, drawing, mouseButton)
    }

    ghost predicate Valid()
      reads this, z, velocity, obstacles, waveSources
    {
      Shaped() && Sim.Inv(View())
    }

    /** The module-level initialisation of wave.py. */
    constructor ()
      ensures Valid() && View() == Sim.Init()
      ensures fresh(z) && fresh(velocity) && fresh(obstacles) && fresh(waveSources)
    {
      var z0 := NewGrid(Sim.GRID_SIZE, 0.0);
      var v0 := NewGrid(Sim.GRID_SIZE, 0.0);
      var o0 := NewGrid(Sim.GRID_SIZE, false);
      var s0 := NewGrid(Sim.GRID_SIZE, false);
      z, velocity, obstacles, waveSources := z0, v0, o0, s0;
      time := 0.0;
      amplitudeHistory := [];
      selectedPoint := (Sim.GRID_SIZE / 2, Sim.GRID_SIZE / 2);
      brushSize := 1;
      drawObstacles, drawWaveSource := true, false;
      graphEnabled := true;
      drawing := false;
      mouseButton := None;
    }

    /** The Laplacian at one cell from its four wrapped neighbours, zero at an obstacle. */
    method LaplacianAt(r: int, c: int) returns (x: real)
      requires Shaped() && 0 <= r < Sim.GRID_SIZE && 0 <= c < Sim.GRID_SIZE
      ensures x == Wave.Mask(Wave.WrappedLaplacian(Cells(z)), Cells(obstacles))[r][c]
    {
      var n := Sim.GRID_SIZE;
      x := if obstacles[r, c] then 0.0
           else z[Wrap(r - 1, n), c] + z[Wrap(r + 1, n), c] + z[r, Wrap(c - 1, n)] + z[r, Wrap(c + 1, n)] - 4.0 * z[r, c];
    }

    /** Row `r` of the masked Laplacian written into `lap`; the other rows are left alone. */
    method LaplacianRow(lap: array2<real>, r: int)
      requires Shaped() && lap.Length0 == Sim.GRID_SIZE && lap.Length1 == Sim.GRID_SIZE && lap != z
      requires 0 <= r < Sim.GRID_SIZE
      modifies lap
      ensures forall i, j :: 0 <= i < Sim.GRID_SIZE && 0 <= j < Sim.GRID_SIZE ==>
        lap[i, j] == if i == r then Wave.Mask(Wave.WrappedLaplacian(Cells(z)), Cells(obstacles))[i][j] else old(lap[i, j])
    {
      ghost var target := Wave.Mask(Wave.WrappedLaplacian(Cells(z)), Cells(obstacles));
      var c := 0;
      while c < Sim.GRID_SIZE
        invariant 0 <= c <= Sim.GRID_SIZE
        invariant forall i, j :: 0 <= i < Sim.GRID_SIZE && 0 <= j < Sim.GRID_SIZE ==>
          lap[i, j] == if i == r && j < c then target[i][j] else old(lap[i, j])
      {
        var x := LaplacianAt(r, c);
        lap[r, c] := x;
        c := c + 1;
      }
    }

    /** The wrap-around Laplacian of the heights, zeroed at obstacles, into a fresh array. */
    method ComputeLaplacian() returns (lap: array2<real>)
      requires Shaped()
      ensures fresh(lap) && lap.Length0 == Sim.GRID_SIZE && lap.Length1 == Sim.GRID_SIZE
      ensures Cells(lap) == Wave.Mask(Wave.WrappedLaplacian(Cells(z)), Cells(obstacles))
    {
      var n := Sim.GRID_SIZE;
      lap := new real[n, n];
      ghost var target := Wave.Mask(Wave.WrappedLaplacian(Cells(z)), Cells(obstacles));
      var r := 0;
      while r < n
        invariant 0 <= r <= n
        invariant forall i, j :: 0 <= i < r && 0 <= j < n ==> lap[i, j] == target[i][j]
      {
        LaplacianRow(lap, r);
        r := r + 1;
      }
      SameCells(Cells(lap), target, n);
    }

    /** The damped velocity update in place, then velocity zero at obstacles. */
    method AdvanceVelocity(lap: array2<real>, attenuation: real, dt: real, c: real)
      requires Shaped() && lap.Length0 == Sim.GRID_SIZE && lap.Length1 == Sim.GRID_SIZE && lap != velocity
      modifies velocity
      ensures Cells(velocity) == Wave.AdvanceVelocity(old(Cells(velocity)), Cells(lap), Cells(obstacles), attenuation, dt, c)
    {
      var n := Sim.GRID_SIZE;
      ghost var v0 := Cells(velocity);
      ghost var target := Wave.AdvanceVelocity(v0, Cells(lap), Cells(obstacles), attenuation, dt, c);
      var r := 0;
      while r < n
        invariant 0 <= r <= n
        invariant forall i, j :: 0 <= i < n && 0 <= j < n ==> velocity[i, j] == if i < r then target[i][j] else v0[i][j]
      {
        var col := 0;
        while col < n
          invariant 0 <= col <= n
          invariant forall i, j :: 0 <= i < n && 0 <= j < n ==>
            velocity[i, j] == if i < r || (i == r && j < col) then target[i][j] else v0[i][j]
        {
          velocity[r, col] :=
            if obstacles[r, col] then 0.0
            else velocity[r, col] + (c * c * lap[r, col] - attenuation * velocity[r, col]) * dt;
          col := col + 1;
        }
        r := r + 1;
      }
      SameCells(Cells(velocity), target, n);
    }

    /** The height update in place by velocity times dt, then height zero at obstacles. */
    method AdvanceHeight(dt: real)
      requires Shaped()
      modifies z
      ensures Cells(z) == Wave.AdvanceHeight(old(Cells(z)), Cells(velocity), Cells(obstacles), dt)
    {
      var n := Sim.GRID_SIZE;
      ghost var z0 := Cells(z);
      ghost var target := Wave.AdvanceHeight(z0, Cells(velocity), Cells(obstacles), dt);
      var r := 0;
      while r < n
        invariant 0 <= r <= n
        invariant forall i, j :: 0 <= i < n && 0 <= j < n ==> z[i, j] == if i < r then target[i][j] else z0[i][j]
      {
        var c := 0;
        while c < n
          invariant 0 <= c <= n
          invariant forall i, j :: 0 <= i < n && 0 <= j < n ==>
            z[i, j] == if i < r || (i == r && j < c) then target[i][j] else z0[i][j]
        {
          z[r, c] := if obstacles[r, c] then 0.0 else z[r, c] + velocity[r, c] * dt;
          c := c + 1;
        }
        r := r + 1;
      }
      SameCells(Cells(z), target, n);
    }

    /** Zero one row of heights. */
    method ClearRow(row: int)
      requires Shaped() && 0 <= row < Sim.GRID_SIZE
      modifies z
      ensures forall i, j :: 0 <= i < Sim.GRID_SIZE && 0 <= j < Sim.GRID_SIZE ==>
        z[i, j] == if i == row then 0.0 else old(z[i, j])
    {
      var c := 0;
      while c < Sim.GRID_SIZE
        invariant 0 <= c <= Sim.GRID_SIZE
        invariant forall i, j :: 0 <= i < Sim.GRID_SIZE && 0 <= j < Sim.GRID_SIZE ==>
          z[i, j] == if i == row && j < c then 0.0 else old(z[i, j])
      {
        z[row, c] := 0.0;
        c := c + 1;
      }
    }

    /** Zero one column of heights. */
    method ClearColumn(col: int)
      requires Shaped() && 0 <= col < Sim.GRID_SIZE
      modifies z
      ensures forall i, j :: 0 <= i < Sim.GRID_SIZE && 0 <= j < Sim.GRID_SIZE ==>
        z[i, j] == if j == col then 0.0 else old(z[i, j])
    {
      var r := 0;
      while r < Sim.GRID_SIZE
        invariant 0 <= r <= Sim.GRID_SIZE
        invariant forall i, j :: 0 <= i < Sim.GRID_SIZE && 0 <= j < Sim.GRID_SIZE ==>
          z[i, j] == if j == col && i < r then 0.0 else old(z[i, j])
      {
        z[r, col] := 0.0;
        r := r + 1;
      }
    }

    /** The absorbing boundary: first and last rows, then first and last columns, set to zero. */
    method AbsorbBoundary()
      requires Shaped()
      modifies z
      ensures Cells(z) == Wave.AbsorbBoundary(old(Cells(z)))
    {
      var n := Sim.GRID_SIZE;
      ghost var z0 := Cells(z);
      ClearRow(0);
      ClearRow(n - 1);
      ClearColumn(0);
      ClearColumn(n - 1);
      SameCells(Cells(z), Wave.AbsorbBoundary(z0), n);
    }

    /**
     * `update_wave(z, velocity, obstacles, attenuation, dt, c)`: one damped
     * wave step, in place.
     */
    method UpdateWave(attenuation: real, dt: real, c: real)
      requires Shaped()
      modifies z, velocity
      ensures var f := Wave.Step(old(Cells(z)), old(Cells(velocity)), Cells(obstacles), attenuation, dt, c);
        Cells(z) == f.height && Cells(velocity) == f.velocity
    {
      Wave.RollsMakeWrappedLaplacian(Cells(z));
      var lap := ComputeLaplacian();
      AdvanceVelocity(lap, attenuation, dt, c);
      AdvanceHeight(dt);
      AbsorbBoundary();
    }

    /** Overwrite every source cell's height with `value`. */
    method ForceSources(value: real)
      requires Shaped()
      modifies z
      ensures Cells(z) == Sim.ForceSources(old(Cells(z)), Cells(waveSources), value)
    {
      var n := Sim.GRID_SIZE;
      ghost var z0 := Cells(z);
      ghost var target := Sim.ForceSources(z0, Cells(waveSources), value);
      var r := 0;
      while r < n
        invariant 0 <= r <= n
        invariant forall i, j :: 0 <= i < n && 0 <= j < n ==> z[i, j] == if i < r then target[i][j] else z0[i][j]
      {
        var c := 0;
        while c < n
          invariant 0 <= c <= n
          invariant forall i, j :: 0 <= i < n && 0 <= j < n ==>
            z[i, j] == if i < r || (i == r && j < c) then target[i][j] else z0[i][j]
        {
          if waveSources[r, c] {
            z[r, c] := value;
          }
          c := c + 1;
        }
        r := r + 1;
      }
      SameCells(Cells(z), target, n);
    }

    /** Row `r` of the heights, with -1 at obstacles, written into `image`; the other rows are left alone. */
    method MaskedRow(image: array2<real>, r: int)
      requires Shaped() && image.Length0 == Sim.GRID_SIZE && image.Length1 == Sim.GRID_SIZE && image != z
      requires 0 <= r < Sim.GRID_SIZE
      modifies image
      ensures forall i, j :: 0 <= i < Sim.GRID_SIZE && 0 <= j < Sim.GRID_SIZE ==>
        image[i, j] == if i == r then (if obstacles[i, j] then -1.0 else z[i, j]) else old(image[i, j])
    {
      var c := 0;
      while c < Sim.GRID_SIZE
        invariant 0 <= c <= Sim.GRID_SIZE
        invariant forall i, j :: 0 <= i < Sim.GRID_SIZE && 0 <= j < Sim.GRID_SIZE ==>
          image[i, j] == if i == r && j < c then (if obstacles[i, j] then -1.0 else z[i, j]) else old(image[i, j])
      {
        image[r, c] := if obstacles[r, c] then -1.0 else z[r, c];
        c := c + 1;
      }
    }

    /** The display image of a frame: a copy of the heights, -1 at obstacles, 1.0 at the selected point when the graph is on. */
    method DisplayImage() returns (image: array2<real>)
      requires Shaped() && Sim.WellFormed(View())
      ensures fresh(image) && Cells(image) == Sim.Display(View())
    {
      var n := Sim.GRID_SIZE;
      image := new real[n, n];
      var r := 0;
      while r < n
        invariant 0 <= r <= n
        invariant forall i, j :: 0 <= i < r && 0 <= j < n ==> image[i, j] == if obstacles[i, j] then -1.0 else z[i, j]
      {
        MaskedRow(image, r);
        r := r + 1;
      }
      if graphEnabled {
        image[selectedPoint.0, selectedPoint.1] := 1.0;
      }
      Sim.DisplayMarks(View());
      SameCells(Cells(image), Sim.Display(View()), n);
    }

    /** The field part of `update`: step the wave, then drive the sources with `value`. */
    method StepFields(attenuation: real, c: real, value: real)
      requires Shaped()
      modifies z, velocity
      ensures var s := old(View());
        var f := Wave.Step(s.z, s.velocity, s.obstacles, attenuation, Sim.DT, c);
        View() == s.(z := Sim.ForceSources(f.height, s.waveSources, value), velocity := f.velocity)
    {
      UpdateWave(attenuation, Sim.DT, c);
      ForceSources(value);
    }

    /** The clock part of `update`. */
    method AdvanceClock()
      modifies this`time
      ensures View() == old(View()).(time := old(View()).time + Sim.DT)
    {
      time := time + 0.1;
    }

    /** The history part of `update`: when the graph is on, record the height at the selected point. */
    method RecordProbe()
      requires Shaped() && Sim.WellFormed(View())
      modifies this`amplitudeHistory
      ensures var s := old(View());
        View() == s.(amplitudeHistory :=
          if s.graphEnabled
          then History.Record(s.amplitudeHistory, s.z[s.selectedPoint.0][s.selectedPoint.1], Sim.MaxHistoryLength(Sim.HISTORY_DURATION))
          else s.amplitudeHistory)
    {
      if graphEnabled {
        amplitudeHistory := amplitudeHistory + [z[selectedPoint.0, selectedPoint.1]];
        var maxHistoryLength := Sim.MaxHistoryLength(Sim.HISTORY_DURATION);
        if |amplitudeHistory| > maxHistoryLength {
          amplitudeHistory := amplitudeHistory[|amplitudeHistory| - maxHistoryLength..];
        }
      }
    }

    /**
     * The state part of the animation frame `update`: step the wave,
     * advance the clock, drive the sources with `sourceValue`, and record
     * the selected point when the graph is on.
     */
    method Advance(attenuation: real, c: real, sourceValue: real)
      requires Valid()
      modifies this, z, velocity
      ensures Valid()
      ensures View() == Sim.Tick(old(View()), attenuation, c, sourceValue)
    {
      ghost var s0 := View();
      StepFields(attenuation, c, sourceValue);
      AdvanceClock();
      RecordProbe();
      ghost var t := Sim.Tick(s0, attenuation, c, sourceValue);
      assert View() == t;
    }

    /**
     * The animation frame `update`: advance the state by one frame and
     * return the display image.
     */
    method Update(attenuation: real, c: real, sourceValue: real) returns (image: array2<real>)
      requires Valid()
      modifies this, z, velocity
      ensures Valid()
      ensures View() == Sim.Tick(old(View()), attenuation, c, sourceValue)
      ensures fresh(image) && Cells(image) == Sim.Display(View())
    {
      Advance(attenuation, c, sourceValue);
      image := DisplayImage();
    }

    /** The body of the loops of `update_grid` for one in-grid cell. */
    method BrushCell(row: int, col: int)
      requires Shaped() && 0 <= row < Sim.GRID_SIZE && 0 <= col < Sim.GRID_SIZE
      modifies obstacles, waveSources
      ensures forall r, c :: 0 <= r < Sim.GRID_SIZE && 0 <= c < Sim.GRID_SIZE ==>
        obstacles[r, c] == if r == row && c == col
                           then Brush.PaintObstacle(old(obstacles[r, c]), mouseButton, drawObstacles) else old(obstacles[r, c])
      ensures forall r, c :: 0 <= r < Sim.GRID_SIZE && 0 <= c < Sim.GRID_SIZE ==>
        waveSources[r, c] == if r == row && c == col
                             then Brush.PaintSource(old(waveSources[r, c]), mouseButton, drawObstacles, drawWaveSource)
                             else old(waveSources[r, c])
    {
      if mouseButton == Some(1) {
        if drawObstacles {
          obstacles[row, col] := true;
        } else if drawWaveSource {
          waveSources[row, col] := true;
        }
      } else if mouseButton == Some(3) {
        obstacles[row, col] := false;
        waveSources[row, col] := false;
      }
    }

    /**
     * The loops of `update_grid`: brush every in-grid cell (row y + j,
     * column x + i), offsets i and j running from -(brush_size - 1) to
     * brush_size - 1.
     */
    method PaintBrush(x: int, y: int)
      requires Shaped() && 0 <= x < Sim.GRID_SIZE && 0 <= y < Sim.GRID_SIZE
      modifies obstacles, waveSources
      ensures var m := Brush.Edit(old(Cells(obstacles)), old(Cells(waveSources)), true, x, y, brushSize,
                                  mouseButton, drawObstacles, drawWaveSource);
        Cells(obstacles) == m.obstacles && Cells(waveSources) == m.sources
    {
      var n := Sim.GRID_SIZE;
      ghost var obs0, src0 := Cells(obstacles), Cells(waveSources);
      var i := -brushSize + 1;
      while i < brushSize
        invariant forall r, c :: 0 <= r < n && 0 <= c < n ==>
          obstacles[r, c] == if Brush.InBrush(r, c, x, y, brushSize) && c - x < i
                             then Brush.PaintObstacle(obs0[r][c], mouseButton, drawObstacles) else obs0[r][c]
        invariant forall r, c :: 0 <= r < n && 0 <= c < n ==>
          waveSources[r, c] == if Brush.InBrush(r, c, x, y, brushSize) && c - x < i
                               then Brush.PaintSource(src0[r][c], mouseButton, drawObstacles, drawWaveSource) else src0[r][c]
      {
        var j := -brushSize + 1;
        while j < brushSize
          invariant forall r, c :: 0 <= r < n && 0 <= c < n ==>
            obstacles[r, c] == if Brush.InBrush(r, c, x, y, brushSize) && (c - x < i || (c - x == i && r - y < j))
                               then Brush.PaintObstacle(obs0[r][c], mouseButton, drawObstacles) else obs0[r][c]
          invariant forall r, c :: 0 <= r < n && 0 <= c < n ==>
            waveSources[r, c] == if Brush.InBrush(r, c, x, y, brushSize) && (c - x < i || (c - x == i && r - y < j))
                                 then Brush.PaintSource(src0[r][c], mouseButton, drawObstacles, drawWaveSource) else src0[r][c]
        {
          if 0 <= x + i < n && 0 <= y + j < n {
            BrushCell(y + j, x + i);
          }
          j := j + 1;
        }
        i := i + 1;
      }
      ghost var m := Brush.Edit(obs0, src0, true, x, y, brushSize, mouseButton, drawObstacles, drawWaveSource);
      SameCells(Cells(obstacles), m.obstacles, n);
      SameCells(Cells(waveSources), m.sources, n);
    }

    /** `update_grid(event)`: brush the masks when the pointer is over the axes and inside the grid. */
    method UpdateGrid(e: Sim.PointerEvent)
      requires Shaped()
      modifies obstacles, waveSources
      ensures View() == Sim.UpdateGrid(old(View()), e)
    {
      if e.inAxes {
        var x, y := e.x, e.y;
        if 0 <= x < Sim.GRID_SIZE && 0 <= y < Sim.GRID_SIZE {
          PaintBrush(x, y);
        }
      }
    }

    /** `on_mouse_press(event)`. */
    method OnMousePress(e: Sim.PointerEvent)
      requires Valid()
      modifies this, obstacles, waveSources
      ensures Valid()
      ensures View() == Sim.OnMousePress(old(View()), e)
    {
      if e.inAxes {
        if e.button == 1 {
          drawing := true;
          mouseButton := Some(1);
        } else if e.button == 3 {
          drawing := true;
          mouseButton := Some(3);
        } else if e.button == 2 {
          var x, y := e.x, e.y;
          if 0 <= x < Sim.GRID_SIZE && 0 <= y < Sim.GRID_SIZE {
            selectedPoint := (y, x);
          }
        }
        UpdateGrid(e);
      }
    }

    /** `on_mouse_release(event)`. */
    method OnMouseRelease()
      requires Valid()
      modifies this
      ensures Valid()
      ensures View() == Sim.OnMouseRelease(old(View()))
    {
      drawing := false;
      mouseButton := None;
    }

    /** `on_mouse_motion(event)`. */
    method OnMouseMotion(e: Sim.PointerEvent)
      requires Valid()
      modifies obstacles, waveSources
      ensures Valid()
      ensures View() == Sim.OnMouseMotion(old(View()), e)
    {
      if drawing {
        UpdateGrid(e);
      }
    }

    /** `reset_wave(event)`. */
    method ResetWave()
      requires Valid()
      modifies this, z, velocity, obstacles, waveSources
      ensures Valid()
      ensures View() == Sim.ResetWave(old(View()))
    {
      time := 0.0;
      amplitudeHistory := [];
      Fill(z, 0.0);
      Fill(velocity, 0.0);
      Fill(obstacles, false);
      Fill(waveSources, false);
    }

    /** `toggle_graph(event)`. */
    method ToggleGraph()
      requires Valid()
      modifies this
      ensures Valid()
      ensures View() == Sim.ToggleGraph(old(View()))
    {
      graphEnabled := !graphEnabled;
    }

    /** `update_brush_size(text)`, with `parsed` the outcome of `int(text)`. */
    method UpdateBrushSize(parsed: Option<int>)
      requires Valid()
      modifies this
      ensures Valid()
      ensures View() == Sim.UpdateBrushSize(old(View()), parsed)
    {
      match parsed {
        case Some(n) =>
          brushSize := n;
          if brushSize < 1 {
            brushSize := 1;
          }
        case None =>
          brushSize := 1;
      }
    }

    /** `update_radio(label)`. */
    method UpdateRadio(clicked: string)
      requires Valid()
      modifies this
      ensures Valid()
      ensures View() == Sim.UpdateRadio(old(View()), clicked)
    {
      if clicked == "Obstacles" {
        drawObstacles := true;
        drawWaveSource := false;
      } else if clicked == "Wave Source" {
        drawObstacles := false;
        drawWaveSource := true;
      }
    }
  }
}
