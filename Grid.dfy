/** The pixel-coordinate grid built by `meshgrid` in lorenzmie.py. */
module Grid {

  /** `meshgrid(xrange, yrange)`: two arrays of |yrange| rows by
      |xrange| columns; every row of `x` is `xrange` and every column of
      `y` is `yrange`. */
  method Meshgrid(xrange: seq<real>, yrange: seq<real>) returns (x: array2<real>, y: array2<real>)
    ensures x.Length0 == |yrange| && x.Length1 == |xrange|
    ensures y.Length0 == |yrange| && y.Length1 == |xrange|
    ensures forall i, j :: 0 <= i < |yrange| && 0 <= j < |xrange| ==> x[i, j] == xrange[j]
    ensures forall i, j :: 0 <= i < |yrange| && 0 <= j < |xrange| ==> y[i, j] == yrange[i]
  {
    x := new real[|yrange|, |xrange|]((_, _) => 0.0);
    y := new real[|yrange|, |xrange|]((_, _) => 0.0);

    // x[i, :] = xrange, row by row
    for i := 0 to x.Length0
      invariant forall r, c :: 0 <= r < i && 0 <= c < |xrange| ==> x[r, c] == xrange[c]
    {
      for j := 0 to x.Length1
        invariant forall r, c :: 0 <= r < i && 0 <= c < |xrange| ==> x[r, c] == xrange[c]
        invariant forall c :: 0 <= c < j ==> x[i, c] == xrange[c]
      {
        x[i, j] := xrange[j];
      }
    }

    // y[:, i] = yrange, column by column
    for i := 0 to y.Length1
      invariant forall r, c :: 0 <= r < |yrange| && 0 <= c < |xrange| ==> x[r, c] == xrange[c]
      invariant forall r, c :: 0 <= r < |yrange| && 0 <= c < i ==> y[r, c] == yrange[r]
    {
      for j := 0 to y.Length0
        invariant forall r, c :: 0 <= r < |yrange| && 0 <= c < |xrange| ==> x[r, c] == xrange[c]
        invariant forall r, c :: 0 <= r < |yrange| && 0 <= c < i ==> y[r, c] == yrange[r]
        invariant forall r :: 0 <= r < j ==> y[r, i] == yrange[r]
      {
        y[j, i] := yrange[j];
      }
    }
  }
}
