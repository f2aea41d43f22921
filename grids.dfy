/**
 * Square grids of cells, indexed (row, column), as sequences of rows; the
 * modular index arithmetic behind wrap-around neighbours; and the bridge
 * between a two-dimensional array and the grid of its cells.
 */
module Grids {
  type Grid<T> = seq<seq<T>>

  /** `g` has `n` rows of `n` cells each. */
  predicate IsSquare<T>(g: Grid<T>, n: nat) {
    |g| == n && forall r :: 0 <= r < n ==> |g[r]| == n
  }

  /** The `n` by `n` grid holding `x` in every cell. */
  function Constant<T>(n: nat, x: T): (g: Grid<T>)
    ensures IsSquare(g, n)
    ensures forall r, c :: 0 <= r < n && 0 <= c < n ==> g[r][c] == x
  {
    seq(n, _ => seq(n, _ => x))
  }

  /** `i mod n`, the index a wrap-around access lands on. */
  function Wrap(i: int, n: nat): (k: nat)
    requires n > 0
    ensures k < n
    ensures 0 <= i < n ==> k == i
    ensures i < 0 <= i + n ==> k == i + n
    ensures n <= i < 2 * n ==> k == i - n
  {
    i % n
  }

  /** Moving `k` places forward and then `k` places back, modulo `n`, returns to the start. */
  lemma WrapShift(i: int, k: int, n: nat)
    requires n > 0 && 0 <= i < n
    ensures Wrap(Wrap(i + k, n) - k, n) == i
  {
    var q := (i + k) / n;
    var x := Wrap(i + k, n) - k;
    assert x == i - n * q;
    var q2 := x / n;
    assert i - x % n == n * (q + q2);
    MultipleInRange(n, q + q2);
  }

  lemma MultipleInRange(n: int, k: int)
    requires n > 0 && -n < n * k < n
    ensures k == 0
  {
  }

  /** The cells of a two-dimensional array, row by row. */
  ghost function Cells<T>(a: array2<T>): (g: Grid<T>)
    reads a
    ensures |g| == a.Length0
    ensures forall r :: 0 <= r < a.Length0 ==> |g[r]| == a.Length1
    ensures forall r, c :: 0 <= r < a.Length0 && 0 <= c < a.Length1 ==> g[r][c] == a[r, c]
  {
    seq(a.Length0, r requires 0 <= r < a.Length0 reads a =>
      seq(a.Length1, c requires 0 <= c < a.Length1 reads a => a[r, c]))
  }

  /** Two square grids of the same size that agree cell by cell are equal. */
  lemma SameCells<T>(g: Grid<T>, h: Grid<T>, n: nat)
    requires IsSquare(g, n) && IsSquare(h, n)
    requires forall r, c :: 0 <= r < n && 0 <= c < n ==> g[r][c] == h[r][c]
    ensures g == h
  {
    forall r | 0 <= r < n
      ensures g[r] == h[r]
    {
    }
  }

  /** A fresh `n` by `n` array holding `x` in every cell. */
  method NewGrid<T>(n: nat, x: T) returns (a: array2<T>)
    ensures fresh(a) && a.Length0 == n && a.Length1 == n
    ensures Cells(a) == Constant(n, x)
  {
    a := new T[n, n]((_, _) => x);
    SameCells(Cells(a), Constant(n, x), n);
  }

  /** Sets every cell of `a` to `x`. */
  method Fill<T>(a: array2<T>, x: T)
    requires a.Length0 == a.Length1
    modifies a
    ensures Cells(a) == Constant(a.Length0, x)
  {
    var n := a.Length0;
    var r := 0;
    while r < n
      invariant 0 <= r <= n
      invariant forall i, j :: 0 <= i < r && 0 <= j < n ==> a[i, j] == x
    {
      var c := 0;
      while c < n
        invariant 0 <= c <= n
        invariant forall i, j :: 0 <= i < r && 0 <= j < n ==> a[i, j] == x
        invariant forall j :: 0 <= j < c ==> a[r, j] == x
      {
        a[r, c] := x;
        c := c + 1;
      }
      r := r + 1;
    }
    SameCells(Cells(a), Constant(n, x), n);
  }
}
