/**
 * One integration step of the damped wave equation on a square grid
 * (`update_wave`): a discrete Laplacian built from four wrap-around
 * shifts of the height field, a velocity update that is silenced at
 * obstacles, a height update that is pinned to zero at obstacles, and an
 * absorbing boundary that forces the outer ring of heights to zero.
 * Heights and velocities are reals; floating-point rounding is not modelled.
 */
module Wave {
  import opened Grids

  datatype Axis = Rows | Cols

  /** The height and velocity fields after a step. */
  datatype Fields = Fields(height: Grid<real>, velocity: Grid<real>)

  /** Cell (r, c) lies on the outer ring of an `n` by `n` grid. */
  predicate OnBoundary(r: int, c: int, n: nat) {
    r == 0 || r == n - 1 || c == 0 || c == n - 1
  }

  /**
   * numpy's `roll(g, shift, axis)`: every cell moves `shift` places along
   * `axis`, and cells pushed off one edge come back in at the other.
   */
  function Roll(g: Grid<real>, shift: int, axis: Axis): (h: Grid<real>)
    requires IsSquare(g, |g|)
    ensures IsSquare(h, |g|)
  {
    var n := |g|;
    seq(n, r requires 0 <= r < n =>
      seq(n, c requires 0 <= c < n =>
        match axis
        case Rows => g[Wrap(r - shift, n)][c]
        case Cols => g[r][Wrap(c - shift, n)]))
  }

  /** Rolling moves the cell at (r, c) to (r + shift mod n, c) or (r, c + shift mod n). */
  lemma RollMovesCells(g: Grid<real>, shift: int, axis: Axis, r: int, c: int)
    requires IsSquare(g, |g|) && 0 <= r < |g| && 0 <= c < |g|
    ensures axis == Rows ==> Roll(g, shift, axis)[Wrap(r + shift, |g|)][c] == g[r][c]
    ensures axis == Cols ==> Roll(g, shift, axis)[r][Wrap(c + shift, |g|)] == g[r][c]
  {
    WrapShift(r, shift, |g|);
    WrapShift(c, shift, |g|);
  }

  /** Rolling back by the same amount restores the grid. */
  lemma RollInverse(g: Grid<real>, shift: int, axis: Axis)
    requires IsSquare(g, |g|)
    ensures Roll(Roll(g, shift, axis), -shift, axis) == g
  {
    var n := |g|;
    var h := Roll(Roll(g, shift, axis), -shift, axis);
    forall r, c | 0 <= r < n && 0 <= c < n
      ensures h[r][c] == g[r][c]
    {
      WrapShift(r, shift, n);
      WrapShift(c, shift, n);
    }
    SameCells(h, g, n);
  }

  /** The discrete Laplacian: the four rolled copies added up, less four times the grid. */
  function Laplacian(z: Grid<real>): (lap: Grid<real>)
    requires IsSquare(z, |z|)
    ensures IsSquare(lap, |z|)
  {
    var n := |z|;
    var up, down, left, right := Roll(z, 1, Rows), Roll(z, -1, Rows), Roll(z, 1, Cols), Roll(z, -1, Cols);
    seq(n, r requires 0 <= r < n =>
      seq(n, c requires 0 <= c < n =>
        up[r][c] + down[r][c] + left[r][c] + right[r][c] - 4.0 * z[r][c]))
  }

  /** At each cell the Laplacian adds up the four axis neighbours, indices wrapping modulo n. */
  lemma LaplacianOfNeighbours(z: Grid<real>, r: int, c: int)
    requires IsSquare(z, |z|) && 0 <= r < |z| && 0 <= c < |z|
    ensures Laplacian(z)[r][c] ==
      z[Wrap(r - 1, |z|)][c] + z[Wrap(r + 1, |z|)][c] + z[r][Wrap(c - 1, |z|)] + z[r][Wrap(c + 1, |z|)]
      - 4.0 * z[r][c]
  {
  }

  /** The Laplacian written cell by cell: the four wrapped axis neighbours, less four times the cell. */
  function WrappedLaplacian(z: Grid<real>): (lap: Grid<real>)
    requires IsSquare(z, |z|)
    ensures IsSquare(lap, |z|)
  {
    var n := |z|;
    seq(n, r requires 0 <= r < n => seq(n, c requires 0 <= c < n =>
      z[Wrap(r - 1, n)][c] + z[Wrap(r + 1, n)][c] + z[r][Wrap(c - 1, n)] + z[r][Wrap(c + 1, n)] - 4.0 * z[r][c]))
  }

  /** The sum of rolled copies and the cell-by-cell form are the same grid. */
  lemma RollsMakeWrappedLaplacian(z: Grid<real>)
    requires IsSquare(z, |z|)
    ensures Laplacian(z) == WrappedLaplacian(z)
  {
    SameCells(Laplacian(z), WrappedLaplacian(z), |z|);
  }

  /** `g` with every masked cell set to zero. */
  function Mask(g: Grid<real>, mask: Grid<bool>): (h: Grid<real>)
    requires IsSquare(g, |g|) && IsSquare(mask, |g|)
    ensures IsSquare(h, |g|)
  {
    var n := |g|;
    seq(n, r requires 0 <= r < n => seq(n, c requires 0 <= c < n => if mask[r][c] then 0.0 else g[r][c]))
  }

  /** One cell's damped velocity update: the acceleration c squared times the Laplacian, less attenuation times velocity, applied for dt. */
  function VelocityStep(v: real, lap: real, attenuation: real, dt: real, c: real): real {
    v + (c * c * lap - attenuation * v) * dt
  }

  /** The damped velocity update at every cell, then velocity zero at obstacles. */
  function AdvanceVelocity(v: Grid<real>, lap: Grid<real>, obstacles: Grid<bool>, attenuation: real, dt: real, c: real): (v': Grid<real>)
    requires IsSquare(v, |v|) && IsSquare(lap, |v|) && IsSquare(obstacles, |v|)
    ensures IsSquare(v', |v|)
  {
    var n := |v|;
    seq(n, r requires 0 <= r < n => seq(n, col requires 0 <= col < n =>
      if obstacles[r][col] then 0.0 else VelocityStep(v[r][col], lap[r][col], attenuation, dt, c)))
  }

  /** Heights moved by the new velocity times dt, then height zero at obstacles. */
  function AdvanceHeight(z: Grid<real>, v: Grid<real>, obstacles: Grid<bool>, dt: real): (z': Grid<real>)
    requires IsSquare(z, |z|) && IsSquare(v, |z|) && IsSquare(obstacles, |z|)
    ensures IsSquare(z', |z|)
  {
    var n := |z|;
    seq(n, r requires 0 <= r < n => seq(n, c requires 0 <= c < n =>
      if obstacles[r][c] then 0.0 else z[r][c] + v[r][c] * dt))
  }

  /** The absorbing boundary: rows 0 and n-1 and columns 0 and n-1 set to zero. */
  function AbsorbBoundary(z: Grid<real>): (z': Grid<real>)
    requires IsSquare(z, |z|)
    ensures IsSquare(z', |z|)
  {
    var n := |z|;
    seq(n, r requires 0 <= r < n => seq(n, c requires 0 <= c < n =>
      if OnBoundary(r, c, n) then 0.0 else z[r][c]))
  }

  /** `update_wave(z, velocity, obstacles, attenuation, dt, c)`. */
  function Step(z: Grid<real>, v: Grid<real>, obstacles: Grid<bool>, attenuation: real, dt: real, c: real): (f: Fields)
    requires IsSquare(z, |z|) && IsSquare(v, |z|) && IsSquare(obstacles, |z|)
    ensures IsSquare(f.height, |z|) && IsSquare(f.velocity, |z|)
  {
    var v' := AdvanceVelocity(v, Mask(Laplacian(z), obstacles), obstacles, attenuation, dt, c);
    Fields(AbsorbBoundary(AdvanceHeight(z, v', obstacles, dt)), v')
  }

  /** After a step every cell of the outer ring has height exactly zero, whatever the masks. */
  lemma StepAbsorbsBoundary(z: Grid<real>, v: Grid<real>, obstacles: Grid<bool>, attenuation: real, dt: real, c: real)
    requires IsSquare(z, |z|) && IsSquare(v, |z|) && IsSquare(obstacles, |z|)
    ensures forall r, col :: 0 <= r < |z| && 0 <= col < |z| && OnBoundary(r, col, |z|) ==>
      Step(z, v, obstacles, attenuation, dt, c).height[r][col] == 0.0
  {
  }

  /** After a step every obstacle cell has velocity zero and height zero. */
  lemma StepPinsObstacles(z: Grid<real>, v: Grid<real>, obstacles: Grid<bool>, attenuation: real, dt: real, c: real)
    requires IsSquare(z, |z|) && IsSquare(v, |z|) && IsSquare(obstacles, |z|)
    ensures forall r, col :: 0 <= r < |z| && 0 <= col < |z| && obstacles[r][col] ==>
      Step(z, v, obstacles, attenuation, dt, c).velocity[r][col] == 0.0 &&
      Step(z, v, obstacles, attenuation, dt, c).height[r][col] == 0.0
  {
  }

  /**
   * Away from obstacles the velocity follows the damped wave equation with
   * the wrap-around Laplacian (on the ring too: ring velocities are not
   * clamped), and away from the ring as well the height moves by the new
   * velocity times dt.
   */
  lemma StepFollowsWaveEquation(z: Grid<real>, v: Grid<real>, obstacles: Grid<bool>, attenuation: real, dt: real, c: real, r: int, col: int)
    requires IsSquare(z, |z|) && IsSquare(v, |z|) && IsSquare(obstacles, |z|)
    requires 0 <= r < |z| && 0 <= col < |z| && !obstacles[r][col]
    ensures var n, f := |z|, Step(z, v, obstacles, attenuation, dt, c);
      var lap := z[Wrap(r - 1, n)][col] + z[Wrap(r + 1, n)][col] + z[r][Wrap(col - 1, n)] + z[r][Wrap(col + 1, n)] - 4.0 * z[r][col];
      && f.velocity[r][col] == v[r][col] + (c * c * lap - attenuation * v[r][col]) * dt
      && (!OnBoundary(r, col, n) ==> f.height[r][col] == z[r][col] + f.velocity[r][col] * dt)
  {
    var lap := Mask(Laplacian(z), obstacles);
    var v' := AdvanceVelocity(v, lap, obstacles, attenuation, dt, c);
    LaplacianOfNeighbours(z, r, col);
    assert lap[r][col] == Laplacian(z)[r][col];
    assert v'[r][col] == VelocityStep(v[r][col], lap[r][col], attenuation, dt, c);
    assert AdvanceHeight(z, v', obstacles, dt)[r][col] == z[r][col] + v'[r][col] * dt;
  }

  /** Zeroing the Laplacian at obstacles changes nothing: their velocity is zeroed afterwards anyway. */
  lemma MaskedLaplacianIsRedundant(z: Grid<real>, v: Grid<real>, obstacles: Grid<bool>, attenuation: real, dt: real, c: real)
    requires IsSquare(z, |z|) && IsSquare(v, |z|) && IsSquare(obstacles, |z|)
    ensures AdvanceVelocity(v, Mask(Laplacian(z), obstacles), obstacles, attenuation, dt, c)
         == AdvanceVelocity(v, Laplacian(z), obstacles, attenuation, dt, c)
  {
    var n := |z|;
    SameCells(AdvanceVelocity(v, Mask(Laplacian(z), obstacles), obstacles, attenuation, dt, c),
              AdvanceVelocity(v, Laplacian(z), obstacles, attenuation, dt, c), n);
  }

  /** The height at (r, c), or zero outside the grid. */
  function HeightOrZero(z: Grid<real>, r: int, c: int): real
    requires IsSquare(z, |z|)
  {
    if 0 <= r < |z| && 0 <= c < |z| then z[r][c] else 0.0
  }

  /** A reference Laplacian that pads the grid with zeros instead of wrapping around. */
  function PaddedLaplacian(z: Grid<real>): (lap: Grid<real>)
    requires IsSquare(z, |z|)
    ensures IsSquare(lap, |z|)
  {
    var n := |z|;
    seq(n, r requires 0 <= r < n => seq(n, c requires 0 <= c < n =>
      HeightOrZero(z, r - 1, c) + HeightOrZero(z, r + 1, c) + HeightOrZero(z, r, c - 1) + HeightOrZero(z, r, c + 1)
      - 4.0 * z[r][c]))
  }

  /** Off the outer ring no neighbour index wraps, so both Laplacians agree there. */
  lemma WrapOnlyOnBoundary(z: Grid<real>, r: int, c: int)
    requires IsSquare(z, |z|) && 0 <= r < |z| && 0 <= c < |z| && !OnBoundary(r, c, |z|)
    ensures Laplacian(z)[r][c] == PaddedLaplacian(z)[r][c]
  {
    LaplacianOfNeighbours(z, r, c);
  }

  /**
   * The wrap-around never shows in the heights: a step computed with the
   * zero-padded Laplacian yields exactly the same height field, and the two
   * velocity fields differ at most on the outer ring.
   */
  lemma HeightsIgnoreWrapAround(z: Grid<real>, v: Grid<real>, obstacles: Grid<bool>, attenuation: real, dt: real, c: real)
    requires IsSquare(z, |z|) && IsSquare(v, |z|) && IsSquare(obstacles, |z|)
    ensures var n := |z|;
      var padded := AdvanceVelocity(v, Mask(PaddedLaplacian(z), obstacles), obstacles, attenuation, dt, c);
      var f := Step(z, v, obstacles, attenuation, dt, c);
      && f.height == AbsorbBoundary(AdvanceHeight(z, padded, obstacles, dt))
      && forall r, col :: 0 <= r < n && 0 <= col < n && !OnBoundary(r, col, n) ==> f.velocity[r][col] == padded[r][col]
  {
    var n := |z|;
    var padded := AdvanceVelocity(v, Mask(PaddedLaplacian(z), obstacles), obstacles, attenuation, dt, c);
    var f := Step(z, v, obstacles, attenuation, dt, c);
    var wrapped := AdvanceVelocity(v, Mask(Laplacian(z), obstacles), obstacles, attenuation, dt, c);
    assert f.velocity == wrapped;
    var h := AbsorbBoundary(AdvanceHeight(z, padded, obstacles, dt));
    forall r, col | 0 <= r < n && 0 <= col < n
      ensures !OnBoundary(r, col, n) ==> f.velocity[r][col] == padded[r][col]
      ensures f.height[r][col] == h[r][col]
    {
      if !OnBoundary(r, col, n) {
        WrapOnlyOnBoundary(z, r, col);
        assert wrapped[r][col] == padded[r][col];
        assert f.height[r][col] == AdvanceHeight(z, wrapped, obstacles, dt)[r][col];
      }
    }
    SameCells(f.height, h, n);
  }

  /** A flat field at rest stays flat and at rest. */
  lemma FlatFieldIsFixedPoint(n: nat, obstacles: Grid<bool>, attenuation: real, dt: real, c: real)
    requires IsSquare(obstacles, n)
    ensures Step(Constant(n, 0.0), Constant(n, 0.0), obstacles, attenuation, dt, c)
         == Fields(Constant(n, 0.0), Constant(n, 0.0))
  {
    var zero := Constant(n, 0.0);
    var f := Step(zero, zero, obstacles, attenuation, dt, c);
    forall r, col | 0 <= r < n && 0 <= col < n
      ensures f.velocity[r][col] == 0.0 && f.height[r][col] == 0.0
    {
      LaplacianOfNeighbours(zero, r, col);
    }
    SameCells(f.velocity, zero, n);
    SameCells(f.height, zero, n);
  }

  /** An `n` by `n` field that is zero except for height 1 at (k, k). */
  function Impulse(n: nat, k: nat): (g: Grid<real>)
    ensures IsSquare(g, n)
  {
    seq(n, r requires 0 <= r < n => seq(n, c requires 0 <= c < n => if r == k && c == k then 1.0 else 0.0))
  }

  /**
   * A unit impulse in the middle of a 5 by 5 field at rest, no obstacles,
   * no attenuation, dt 0.1 and speed 1: after one step the centre has
   * velocity -0.4 and height 0.96, and each axis neighbour has velocity
   * 0.1 and height 0.01.
   */
  lemma ImpulseFirstStep()
    ensures var f := Step(Impulse(5, 2), Constant(5, 0.0), Constant(5, false), 0.0, 0.1, 1.0);
      && f.velocity[2][2] == -0.4 && f.height[2][2] == 0.96
      && f.velocity[1][2] == 0.1 && f.height[1][2] == 0.01
      && f.velocity[3][2] == 0.1 && f.height[3][2] == 0.01
      && f.velocity[2][1] == 0.1 && f.height[2][1] == 0.01
      && f.velocity[2][3] == 0.1 && f.height[2][3] == 0.01
  {
    var z, v, o := Impulse(5, 2), Constant(5, 0.0), Constant(5, false);
    StepFollowsWaveEquation(z, v, o, 0.0, 0.1, 1.0, 2, 2);
    StepFollowsWaveEquation(z, v, o, 0.0, 0.1, 1.0, 1, 2);
    StepFollowsWaveEquation(z, v, o, 0.0, 0.1, 1.0, 3, 2);
    StepFollowsWaveEquation(z, v, o, 0.0, 0.1, 1.0, 2, 1);
    StepFollowsWaveEquation(z, v, o, 0.0, 0.1, 1.0, 2, 3);
  }
}
