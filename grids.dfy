/** Two-dimensional arrays of bin values, represented as sequences of rows. */
module Grids {
  import opened Floats

  type Grid = seq<seq<Float>>

  /** `g` has shape (rows, cols). */
  ghost predicate IsRect(g: Grid, rows: nat, cols: nat)
  {
    |g| == rows && forall i :: 0 <= i < rows ==> |g[i]| == cols
  }

  /** Column `j` of a grid whose rows all have more than `j` entries: `g[:, j]`. */
  function Column(g: Grid, j: nat): (c: seq<Float>)
    requires forall i :: 0 <= i < |g| ==> j < |g[i]|
    ensures |c| == |g|
    ensures forall i :: 0 <= i < |g| ==> c[i] == g[i][j]
  {
    seq(|g|, i requires 0 <= i < |g| => g[i][j])
  }

  /** The transpose `g.T` of a grid with `cols` columns. */
  function Transpose(g: Grid, cols: nat): (t: Grid)
    requires IsRect(g, |g|, cols)
    ensures IsRect(t, cols, |g|)
    ensures forall i, j :: 0 <= i < |g| && 0 <= j < cols ==> t[j][i] == g[i][j]
  {
    seq(cols, j requires 0 <= j < cols => Column(g, j))
  }

  /** Transposing twice gives back the grid: the forward and inverse axis moves cancel. */
  lemma TransposeTwice(g: Grid, cols: nat)
    requires IsRect(g, |g|, cols)
    ensures Transpose(Transpose(g, cols), |g|) == g
  {
    var t := Transpose(g, cols);
    var tt := Transpose(t, |g|);
    assert |tt| == |g|;
    forall i | 0 <= i < |g|
      ensures tt[i] == g[i]
    {
      assert |tt[i]| == cols == |g[i]|;
      forall j | 0 <= j < cols
        ensures tt[i][j] == g[i][j]
      {
        assert tt[i][j] == t[j][i];
      }
    }
  }

  /** Entry-wise clipping to non-negative values, `g.clip(0)`. */
  function ClipGrid(g: Grid): (r: Grid)
    ensures |r| == |g|
    ensures forall i :: 0 <= i < |g| ==> |r[i]| == |g[i]|
    ensures forall i, j :: 0 <= i < |g| && 0 <= j < |g[i]| ==> r[i][j] == Clip(g[i][j])
  {
    seq(|g|, i requires 0 <= i < |g| => seq(|g[i]|, j requires 0 <= j < |g[i]| => Clip(g[i][j])))
  }

  /** Clipping an already clipped grid changes nothing. */
  lemma ClipGridTwice(g: Grid)
    ensures ClipGrid(ClipGrid(g)) == ClipGrid(g)
  {
    var c := ClipGrid(g);
    var cc := ClipGrid(c);
    forall i | 0 <= i < |c|
      ensures cc[i] == c[i]
    {
      assert forall j :: 0 <= j < |c[i]| ==> cc[i][j] == Clip(c[i][j]) == c[i][j];
    }
  }

  /** Entry-wise multiplication by a scalar, `g * c`. */
  function ScaleGrid(g: Grid, c: real): (r: Grid)
    ensures |r| == |g|
    ensures forall i :: 0 <= i < |g| ==> |r[i]| == |g[i]|
    ensures forall i, j :: 0 <= i < |g| && 0 <= j < |g[i]| ==> r[i][j] == Scale(g[i][j], c)
  {
    seq(|g|, i requires 0 <= i < |g| => seq(|g[i]|, j requires 0 <= j < |g[i]| => Scale(g[i][j], c)))
  }

  /** Every entry is finite, `np.all(np.isfinite(row))`. */
  predicate AllFinite(row: seq<Float>)
  {
    forall k :: 0 <= k < |row| ==> row[k].Finite?
  }
}
