/** Two-dimensional intensity grids (rows are time samples, columns frequency channels). */
module Grids {

  type Grid = seq<seq<real>>

  /** `g` has `rows` rows of `cols` cells each, the NumPy shape (rows, cols). */
  ghost predicate IsGrid(g: Grid, rows: nat, cols: nat) {
    |g| == rows && forall r :: 0 <= r < rows ==> |g[r]| == cols
  }

  ghost predicate SameShape(a: Grid, b: Grid) {
    |a| == |b| && forall r :: 0 <= r < |a| ==> |a[r]| == |b[r]|
  }

  /** `np.zeros((rows, cols))`. */
  function ZeroGrid(rows: nat, cols: nat): (z: Grid)
    ensures IsGrid(z, rows, cols)
    ensures forall r, c :: 0 <= r < rows && 0 <= c < cols ==> z[r][c] == 0.0
  {
    seq(rows, r => seq(cols, c => 0.0))
  }

  /** Elementwise sum, the effect of NumPy's `a += b` on equal shapes. */
  function AddGrids(a: Grid, b: Grid): (s: Grid)
    requires SameShape(a, b)
  {
    seq(|a|, r requires 0 <= r < |a| => seq(|a[r]|, c requires 0 <= c < |a[r]| => a[r][c] + b[r][c]))
  }

  /** Adding onto an all-zero grid yields the added grid itself. */
  lemma AddOntoZero(g: Grid, rows: nat, cols: nat)
    requires IsGrid(g, rows, cols)
    ensures AddGrids(ZeroGrid(rows, cols), g) == g
  {
    var s := AddGrids(ZeroGrid(rows, cols), g);
    forall r | 0 <= r < rows ensures s[r] == g[r] {
      assert |s[r]| == |g[r]|;
    }
  }

  /** Two additions commute: the order of injections does not affect the grid. */
  lemma AddGridsCommute(a: Grid, b: Grid)
    requires SameShape(a, b)
    ensures SameShape(b, a)
    ensures AddGrids(a, b) == AddGrids(b, a)
  {
    var s, t := AddGrids(a, b), AddGrids(b, a);
    forall r | 0 <= r < |a| ensures s[r] == t[r] {
      assert |s[r]| == |t[r]|;
    }
  }

  /** Successive additions can be regrouped: ((a + b) + c) == (a + (b + c)). */
  lemma AddGridsAssociate(a: Grid, b: Grid, c: Grid)
    requires SameShape(a, b) && SameShape(b, c)
    ensures SameShape(AddGrids(a, b), c) && SameShape(a, AddGrids(b, c))
    ensures AddGrids(AddGrids(a, b), c) == AddGrids(a, AddGrids(b, c))
  {
    var s, t := AddGrids(AddGrids(a, b), c), AddGrids(a, AddGrids(b, c));
    forall r | 0 <= r < |a| ensures s[r] == t[r] {
      assert |s[r]| == |t[r]|;
    }
  }
}
