/**
 * Brush editing of the obstacle and source masks (`update_grid`). The
 * pointer cell is (row y, column x); the brush is the square of offsets
 * `-(b-1) .. b-1` around it in both directions, clipped to the grid cell by
 * cell. Button 1 paints with the active tool, button 3 erases both masks.
 */
module Brush {
  import opened Grids
  import opened Optional

  /** Both masks after an edit. */
  datatype Masks = Masks(obstacles: Grid<bool>, sources: Grid<bool>)

  /** Cell (r, c) is within the brush of size `b` centred on column `x`, row `y`. */
  predicate InBrush(r: int, c: int, x: int, y: int, b: int) {
    -(b - 1) <= c - x <= b - 1 && -(b - 1) <= r - y <= b - 1
  }

  /** A brushed cell's obstacle flag: button 1 sets it under the obstacle tool, button 3 clears it. */
  function PaintObstacle(was: bool, button: Option<int>, drawObstacles: bool): bool {
    if button == Some(1) then (if drawObstacles then true else was)
    else if button == Some(3) then false
    else was
  }

  /** A brushed cell's source flag: button 1 sets it under the source tool, button 3 clears it. */
  function PaintSource(was: bool, button: Option<int>, drawObstacles: bool, drawWaveSource: bool): bool {
    if button == Some(1) then (if drawObstacles then was else if drawWaveSource then true else was)
    else if button == Some(3) then false
    else was
  }

  /** `update_grid`: the masks after the brush is applied at pointer (x, y). */
  function Edit(
    obstacles: Grid<bool>, sources: Grid<bool>, inAxes: bool, x: int, y: int, b: int,
    button: Option<int>, drawObstacles: bool, drawWaveSource: bool): (m: Masks)
    requires IsSquare(obstacles, |obstacles|) && IsSquare(sources, |obstacles|)
    ensures IsSquare(m.obstacles, |obstacles|) && IsSquare(m.sources, |obstacles|)
  {
    var n := |obstacles|;
    if inAxes && 0 <= x < n && 0 <= y < n then
      Masks(
        seq(n, r requires 0 <= r < n => seq(n, c requires 0 <= c < n =>
          if InBrush(r, c, x, y, b) then PaintObstacle(obstacles[r][c], button, drawObstacles) else obstacles[r][c])),
        seq(n, r requires 0 <= r < n => seq(n, c requires 0 <= c < n =>
          if InBrush(r, c, x, y, b) then PaintSource(sources[r][c], button, drawObstacles, drawWaveSource) else sources[r][c])))
    else
      Masks(obstacles, sources)
  }

  /**
   * Button 1 with the obstacle tool, pointer inside the grid: exactly the
   * clipped brush square is added to the obstacle mask; the source mask is
   * unchanged.
   */
  lemma PaintObstaclesSetsBrush(
    obstacles: Grid<bool>, sources: Grid<bool>, x: int, y: int, b: int, drawWaveSource: bool)
    requires IsSquare(obstacles, |obstacles|) && IsSquare(sources, |obstacles|)
    requires 0 <= x < |obstacles| && 0 <= y < |obstacles|
    ensures var m := Edit(obstacles, sources, true, x, y, b, Some(1), true, drawWaveSource);
      && (forall r, c :: 0 <= r < |obstacles| && 0 <= c < |obstacles| ==>
            m.obstacles[r][c] == (obstacles[r][c] || InBrush(r, c, x, y, b)))
      && m.sources == sources
  {
    var m := Edit(obstacles, sources, true, x, y, b, Some(1), true, drawWaveSource);
    SameCells(m.sources, sources, |obstacles|);
  }

  /**
   * Button 1 with the source tool, pointer inside the grid: exactly the
   * clipped brush square is added to the source mask; the obstacle mask is
   * unchanged.
   */
  lemma PaintSourcesSetsBrush(obstacles: Grid<bool>, sources: Grid<bool>, x: int, y: int, b: int)
    requires IsSquare(obstacles, |obstacles|) && IsSquare(sources, |obstacles|)
    requires 0 <= x < |obstacles| && 0 <= y < |obstacles|
    ensures var m := Edit(obstacles, sources, true, x, y, b, Some(1), false, true);
      && m.obstacles == obstacles
      && forall r, c :: 0 <= r < |obstacles| && 0 <= c < |obstacles| ==>
           m.sources[r][c] == (sources[r][c] || InBrush(r, c, x, y, b))
  {
    var m := Edit(obstacles, sources, true, x, y, b, Some(1), false, true);
    SameCells(m.obstacles, obstacles, |obstacles|);
  }

  /** Button 3, pointer inside the grid: both masks lose exactly the clipped brush square. */
  lemma EraseClearsBrush(
    obstacles: Grid<bool>, sources: Grid<bool>, x: int, y: int, b: int, drawObstacles: bool, drawWaveSource: bool)
    requires IsSquare(obstacles, |obstacles|) && IsSquare(sources, |obstacles|)
    requires 0 <= x < |obstacles| && 0 <= y < |obstacles|
    ensures var m := Edit(obstacles, sources, true, x, y, b, Some(3), drawObstacles, drawWaveSource);
      forall r, c :: 0 <= r < |obstacles| && 0 <= c < |obstacles| ==>
        && m.obstacles[r][c] == (obstacles[r][c] && !InBrush(r, c, x, y, b))
        && m.sources[r][c] == (sources[r][c] && !InBrush(r, c, x, y, b))
  {
  }

  /**
   * A pointer outside the axes or outside the grid, or a button other
   * than 1 and 3, leaves both masks as they were.
   */
  lemma EditWithoutEffect(
    obstacles: Grid<bool>, sources: Grid<bool>, inAxes: bool, x: int, y: int, b: int,
    button: Option<int>, drawObstacles: bool, drawWaveSource: bool)
    requires IsSquare(obstacles, |obstacles|) && IsSquare(sources, |obstacles|)
    requires !inAxes || !(0 <= x < |obstacles| && 0 <= y < |obstacles|) || (button != Some(1) && button != Some(3))
    ensures Edit(obstacles, sources, inAxes, x, y, b, button, drawObstacles, drawWaveSource) == Masks(obstacles, sources)
  {
    var n := |obstacles|;
    var m := Edit(obstacles, sources, inAxes, x, y, b, button, drawObstacles, drawWaveSource);
    SameCells(m.obstacles, obstacles, n);
    SameCells(m.sources, sources, n);
  }

  /**
   * On an empty 300 by 300 grid, painting obstacles with brush size 2 at
   * (10, 10) marks the 3 by 3 block of rows and columns 9 to 11 and
   * nothing else.
   */
  lemma BrushTwoMarksThreeByThree()
    ensures var empty := Constant(300, false);
      var m := Edit(empty, empty, true, 10, 10, 2, Some(1), true, false);
      forall r, c :: 0 <= r < 300 && 0 <= c < 300 ==>
        m.obstacles[r][c] == (9 <= r <= 11 && 9 <= c <= 11)
  {
    var empty := Constant(300, false);
    PaintObstaclesSetsBrush(empty, empty, 10, 10, 2, false);
  }
}
