/** The smoothing and interpolation engine of the effective-area stage, as functions:
    two passes of one-dimensional smoothing splines over a [coszen, energy] array,
    and a two-dimensional interpolation onto another binning. The numerical fits
    themselves are collaborators, given as function values. */
module Smoothing {
  import opened Results
  import opened Floats
  import opened Grids
  import opened Binning
  import opened FlavInt
  import opened Transforms

  /** A cubic smoothing spline fitted through the bin midpoints of a dimension to the
      ordinates `ys` with optional weights and smoothing factor `s`, evaluated at the
      `k`-th midpoint: `splev(midpoints, splrep(midpoints, ys, w=weights, k=3, s=s))[k]`. */
  type SplineFit = (Dim, seq<Float>, Option<seq<real>>, real, nat) -> Float

  /** A two-dimensional interpolant of kind `kind` fitted over the midpoints of the
      first binning to the array `z`, evaluated at the midpoint (i, j) of the second. */
  type Interpolant = (MultiDimBinning, Grid, string, MultiDimBinning, nat, nat) -> Float

  // ---------------------------------------------------------------------------
  // Axis handling

  /** The array is already in computation order [coszen, energy]. */
  function CzFirst(b: MultiDimBinning): bool
    requires |b| == 2
  {
    b[0].name == TrueCoszen
  }

  /** `binning.<name>`: the axis of that name. */
  function DimNamed(b: MultiDimBinning, name: string): (d: Dim)
    requires |b| == 2 && HasDim(b, name)
    ensures d in b && d.name == name
  {
    if b[0].name == name then b[0] else b[1]
  }

  function TransposeHist(h: Hist, cols: nat): (r: Hist)
    requires HistShaped(h, |h.vals|, cols)
    ensures r.Plain? <==> h.Plain?
    ensures HistShaped(r, cols, |h.vals|)
  {
    match h
    case Plain(v) => Plain(Transpose(v, cols))
    case Uncertain(v, e) => Uncertain(Transpose(v, cols), Transpose(e, cols))
  }

  /** `np.moveaxis` to [coszen, energy], skipped when the order already is that. */
  function ToCompOrder(h: Hist, czFirst: bool, cols: nat): Hist
    requires HistShaped(h, |h.vals|, cols)
  {
    if czFirst then h else TransposeHist(h, cols)
  }

  /** `np.moveaxis` back to the caller's order, skipped when no move was made. */
  function FromCompOrder(g: Grid, czFirst: bool, cols: nat): Grid
    requires IsRect(g, |g|, cols)
  {
    if czFirst then g else Transpose(g, cols)
  }

  /** The entry of a caller-order grid at coszen index `c` and energy index `e`. */
  function At(g: Grid, czFirst: bool, c: nat, e: nat): Float
    requires if czFirst then c < |g| && e < |g[c]| else e < |g| && c < |g[e]|
  {
    if czFirst then g[c][e] else g[e][c]
  }

  /** Moving the axes of a (nCz x nE)-ordered array and moving them back cancels. */
  lemma MoveAxesCancel(g: Grid, czFirst: bool, rows: nat, cols: nat)
    requires IsRect(g, rows, cols)
    ensures IsRect(ToCompOrder(Plain(g), czFirst, cols).vals, if czFirst then rows else cols, if czFirst then cols else rows)
    ensures FromCompOrder(ToCompOrder(Plain(g), czFirst, cols).vals, czFirst, if czFirst then cols else rows) == g
  {
    if !czFirst {
      TransposeTwice(g, cols);
    }
  }

  /** Reading in computation order is reading the caller's array by axis name, and
      writing back in the caller's order puts entry [c][e] at coszen c, energy e. */
  lemma AxisOrderConsistent(g: Grid, s: Grid, czFirst: bool, nCz: nat, nE: nat)
    requires IsRect(g, if czFirst then nCz else nE, if czFirst then nE else nCz)
    requires IsRect(s, nCz, nE)
    ensures forall c, e :: 0 <= c < nCz && 0 <= e < nE ==>
      ToCompOrder(Plain(g), czFirst, if czFirst then nE else nCz).vals[c][e] == At(g, czFirst, c, e)
    ensures forall c, e :: 0 <= c < nCz && 0 <= e < nE ==>
      At(FromCompOrder(s, czFirst, nE), czFirst, c, e) == s[c][e]
  {
  }

  // ---------------------------------------------------------------------------
  // Fit-weight imputation

  /** A bin whose value or error is zero or NaN. */
  predicate Flagged(v: Float, e: Float)
  {
    IsZero(v) || v.NaN? || IsZero(e) || e.NaN?
  }

  /** `np.min(errs[errs > 0])`; None when the selection is empty. */
  function MinPositive(errs: seq<Float>): (m: Option<real>)
    ensures m.None? <==> forall k :: 0 <= k < |errs| ==> !IsPositive(errs[k])
    ensures m.Some? ==> m.value > 0.0 && exists k :: 0 <= k < |errs| && errs[k] == Finite(m.value)
    ensures m.Some? ==> forall k :: 0 <= k < |errs| && IsPositive(errs[k]) ==> m.value <= errs[k].val
  {
    if |errs| == 0 then None
    else
      var rest := MinPositive(errs[..|errs| - 1]);
      var e := errs[|errs| - 1];
      if !IsPositive(e) then rest
      else if rest.None? || e.val <= rest.value then Some(e.val)
      else rest
  }

  /** `errs[flagged] = m`: flagged bins take the substitute error, others keep theirs. */
  function Imputed(vals: seq<Float>, errs: seq<Float>, m: real): (r: seq<Float>)
    requires |vals| == |errs|
  {
    seq(|errs|, k requires 0 <= k < |errs| => if Flagged(vals[k], errs[k]) then Finite(m) else errs[k])
  }

  /** `1. / errs` for errors that are all finite and non-zero. */
  function Reciprocals(errs: seq<Float>): (w: seq<real>)
    requires forall k :: 0 <= k < |errs| ==> errs[k].Finite? && errs[k].val != 0.0
    ensures |w| == |errs|
  {
    seq(|errs|, k requires 0 <= k < |errs| => 1.0 / errs[k].val)
  }

  /** The fit weights of one coszen slice: impute the flagged errors with the minimum
      positive error of the slice, then take reciprocals. */
  function SliceWeights(vals: seq<Float>, errs: seq<Float>): (r: Result<seq<real>>)
    requires |vals| == |errs|
    ensures r.Err? <==> forall k :: 0 <= k < |errs| ==> !IsPositive(errs[k])
    ensures r.Err? ==> r.error == ValueError
    ensures r.Ok? ==> |r.value| == |errs|
  {
    match MinPositive(errs)
    case None => Err(ValueError)
    case Some(m) => Ok(Reciprocals(Imputed(vals, errs, m)))
  }

  /** After imputation every flagged bin carries the slice's minimum positive error,
      every other bin its own error, and with non-negative errors every weight is positive. */
  lemma {:induction false} ImputedWeights(vals: seq<Float>, errs: seq<Float>)
    requires |vals| == |errs|
    requires exists k :: 0 <= k < |errs| && IsPositive(errs[k])
    ensures MinPositive(errs).Some?
    ensures var m := MinPositive(errs).value; var w := SliceWeights(vals, errs);
      w.Ok? &&
      (forall k :: 0 <= k < |errs| && Flagged(vals[k], errs[k]) ==> w.value[k] == 1.0 / m) &&
      (forall k :: 0 <= k < |errs| && !Flagged(vals[k], errs[k]) ==> w.value[k] == 1.0 / errs[k].val)
    ensures (forall k :: 0 <= k < |errs| && errs[k].Finite? ==> errs[k].val >= 0.0) ==>
      forall k :: 0 <= k < |errs| ==> SliceWeights(vals, errs).value[k] > 0.0
  {
    var m := MinPositive(errs).value;
    ImputedReciprocals(vals, errs, m);
    assert SliceWeights(vals, errs) == Ok(Reciprocals(Imputed(vals, errs, m)));
  }

  /** The reciprocals of the imputed errors, bin by bin, for a positive substitute. */
  lemma ImputedReciprocals(vals: seq<Float>, errs: seq<Float>, m: real)
    requires |vals| == |errs| && m > 0.0
    requires forall k :: 0 <= k < |errs| && !Flagged(vals[k], errs[k]) ==> errs[k].Finite?
    ensures forall k :: 0 <= k < |errs| ==> Imputed(vals, errs, m)[k].Finite? && Imputed(vals, errs, m)[k].val != 0.0
    ensures forall k :: 0 <= k < |errs| && Flagged(vals[k], errs[k]) ==>
      Reciprocals(Imputed(vals, errs, m))[k] == 1.0 / m
    ensures forall k :: 0 <= k < |errs| && !Flagged(vals[k], errs[k]) ==>
      Reciprocals(Imputed(vals, errs, m))[k] == 1.0 / errs[k].val
    ensures (forall k :: 0 <= k < |errs| && errs[k].Finite? ==> errs[k].val >= 0.0) ==>
      forall k :: 0 <= k < |errs| ==> Reciprocals(Imputed(vals, errs, m))[k] > 0.0
  {
    var imp := Imputed(vals, errs, m);
    if forall k :: 0 <= k < |errs| && errs[k].Finite? ==> errs[k].val >= 0.0 {
      forall k | 0 <= k < |errs|
        ensures Reciprocals(imp)[k] > 0.0
      {
        if !Flagged(vals[k], errs[k]) {
          assert errs[k].val > 0.0;
        }
      }
    }
  }

  // ---------------------------------------------------------------------------
  // The two passes

  /** Fit weights for coszen slice `i`: none without errors. */
  function RowWeights(h: Hist, i: nat, nE: nat): (r: Result<Option<seq<real>>>)
    requires i < |h.vals| && HistShaped(h, |h.vals|, nE)
    ensures r.Ok? ==> (r.value.Some? <==> h.Uncertain?)
    ensures r.Ok? && r.value.Some? ==> |r.value.value| == nE
    ensures r.Err? <==> h.Uncertain? && forall k :: 0 <= k < nE ==> !IsPositive(h.errs[i][k])
    ensures r.Err? ==> r.error == ValueError
    ensures r.Ok? && h.Uncertain? ==> r.value == Some(SliceWeights(h.vals[i], h.errs[i]).value)
  {
    if h.Plain? then Ok(None)
    else
      match SliceWeights(h.vals[i], h.errs[i])
      case Err(e) => Err(e)
      case Ok(w) => Ok(Some(w))
  }

  /** First pass on slice `i`: the spline through the energy midpoints, evaluated there;
      a non-finite value fails the assertion. */
  function SmoothRow(h: Hist, i: nat, eDim: Dim, eFactor: real, spline: SplineFit): (r: Result<seq<Float>>)
    requires i < |h.vals| && HistShaped(h, |h.vals|, eDim.numBins)
    ensures r.Ok? ==> |r.value| == eDim.numBins && AllFinite(r.value)
    ensures r.Ok? ==> RowWeights(h, i, eDim.numBins).Ok? && forall k :: 0 <= k < eDim.numBins ==>
      r.value[k] == spline(eDim, h.vals[i], RowWeights(h, i, eDim.numBins).value, eFactor, k)
    ensures RowWeights(h, i, eDim.numBins).Err? ==> r == Err(RowWeights(h, i, eDim.numBins).error)
    ensures RowWeights(h, i, eDim.numBins).Ok? ==>
      (r.Err? <==> exists k :: 0 <= k < eDim.numBins &&
                     !spline(eDim, h.vals[i], RowWeights(h, i, eDim.numBins).value, eFactor, k).Finite?)
    ensures RowWeights(h, i, eDim.numBins).Ok? && r.Err? ==> r.error == AssertionError
  {
    match RowWeights(h, i, eDim.numBins)
    case Err(e) => Err(e)
    case Ok(w) =>
      var row := seq(eDim.numBins, k requires 0 <= k => spline(eDim, h.vals[i], w, eFactor, k));
      if AllFinite(row) then Ok(row) else Err(AssertionError)
  }

  /** The first pass over slices 0 .. n-1; the first failing slice decides the error. */
  function FirstPass(h: Hist, n: nat, eDim: Dim, eFactor: real, spline: SplineFit): (r: Result<Grid>)
    requires n <= |h.vals| && HistShaped(h, |h.vals|, eDim.numBins)
    ensures r.Ok? <==> forall i :: 0 <= i < n ==> SmoothRow(h, i, eDim, eFactor, spline).Ok?
    ensures r.Ok? ==> IsRect(r.value, n, eDim.numBins)
    ensures r.Ok? ==> forall i :: 0 <= i < n ==> SmoothRow(h, i, eDim, eFactor, spline) == Ok(r.value[i])
    ensures r.Err? ==> exists i :: 0 <= i < n && SmoothRow(h, i, eDim, eFactor, spline) == Err(r.error) &&
                                   (forall i' :: 0 <= i' < i ==> SmoothRow(h, i', eDim, eFactor, spline).Ok?)
  {
    if n == 0 then Ok([])
    else
      match FirstPass(h, n - 1, eDim, eFactor, spline)
      case Err(e) => Err(e)
      case Ok(rows) =>
        match SmoothRow(h, n - 1, eDim, eFactor, spline)
        case Err(e) => Err(e)
        case Ok(row) => Ok(rows + [row])
  }

  /** The second pass: for each energy column of the first-pass result, the unweighted
      spline through the coszen midpoints, evaluated there (one column per energy bin). */
  function SecondPass(s: Grid, czDim: Dim, czFactor: real, spline: SplineFit, nE: nat): (c: Grid)
    requires IsRect(s, czDim.numBins, nE)
    ensures IsRect(c, nE, czDim.numBins)
  {
    seq(nE, j requires 0 <= j < nE =>
      seq(czDim.numBins, i requires 0 <= i => spline(czDim, Column(s, j), None, czFactor, i)))
  }

  /** A smoothed copy of `t`: same names and binnings, a plain array of the input's shape. */
  ghost predicate SmoothedLike(t: Transform, r: Transform)
  {
    r.inputNames == t.inputNames && r.outputName == t.outputName &&
    r.inputBinning == t.inputBinning && r.outputBinning == t.outputBinning &&
    r.xformArray.Plain? && WellShaped(r)
  }

  /** The array of `t` in computation order; the number of energy bins is its column count. */
  function CompHist(t: Transform): (h: Hist)
    requires WellShaped(t) && HasDim(t.inputBinning, TrueCoszen) && HasDim(t.inputBinning, TrueEnergy)
    ensures HistShaped(h, DimNamed(t.inputBinning, TrueCoszen).numBins, DimNamed(t.inputBinning, TrueEnergy).numBins)
  {
    ToCompOrder(t.xformArray, CzFirst(t.inputBinning), t.inputBinning[1].numBins)
  }

  /** `slice_smooth`. */
  function Smoothed(t: Transform, eFactor: real, czFactor: real, spline: SplineFit): (r: Result<Transform>)
    requires WellShaped(t)
  {
    var b := t.inputBinning;
    if !HasDim(b, TrueCoszen) || !HasDim(b, TrueEnergy) then Err(ValueError)
    else
      var czFirst := CzFirst(b);
      var czDim := DimNamed(b, TrueCoszen);
      var eDim := DimNamed(b, TrueEnergy);
      match FirstPass(CompHist(t), czDim.numBins, eDim, eFactor, spline)
      case Err(e) => Err(e)
      case Ok(s) =>
        var smoothed := Transpose(SecondPass(s, czDim, czFactor, spline, eDim.numBins), czDim.numBins);
        Ok(Transform(t.inputNames, t.outputName, t.inputBinning, t.outputBinning,
                     Plain(FromCompOrder(smoothed, czFirst, eDim.numBins))))
  }

  /** Smoothing keeps names and binnings and returns the input's shape in the caller's
      axis order; it fails exactly when an axis is missing or some slice fails. */
  lemma {:induction false} SmoothedShape(t: Transform, eFactor: real, czFactor: real, spline: SplineFit)
    requires WellShaped(t)
    ensures var r := Smoothed(t, eFactor, czFactor, spline);
      r.Ok? <==> (HasDim(t.inputBinning, TrueCoszen) && HasDim(t.inputBinning, TrueEnergy) &&
                  forall i :: 0 <= i < DimNamed(t.inputBinning, TrueCoszen).numBins ==>
                    SmoothRow(CompHist(t), i, DimNamed(t.inputBinning, TrueEnergy), eFactor, spline).Ok?)
    ensures var r := Smoothed(t, eFactor, czFactor, spline);
      r.Ok? ==> SmoothedLike(t, r.value)
  {
    var b := t.inputBinning;
    var r := Smoothed(t, eFactor, czFactor, spline);
    if r.Ok? {
      var czFirst := CzFirst(b);
      var czDim := DimNamed(b, TrueCoszen);
      var eDim := DimNamed(b, TrueEnergy);
      var s := FirstPass(CompHist(t), czDim.numBins, eDim, eFactor, spline).value;
      var smoothed := Transpose(SecondPass(s, czDim, czFactor, spline, eDim.numBins), czDim.numBins);
      assert IsRect(smoothed, czDim.numBins, eDim.numBins);
      if czFirst {
        assert b[0] == czDim && b[1] == eDim;
      } else {
        assert b[1] == czDim && b[0] == eDim;
      }
    }
  }

  /** A non-finite first-pass value is fatal, never masked: smoothing then fails, and
      with every earlier slice smoothed the failure is the `AssertionError`. */
  lemma NonFiniteIsFatal(t: Transform, eFactor: real, czFactor: real, spline: SplineFit, i: nat, k: nat)
    requires WellShaped(t) && HasDim(t.inputBinning, TrueCoszen) && HasDim(t.inputBinning, TrueEnergy)
    requires i < DimNamed(t.inputBinning, TrueCoszen).numBins && k < DimNamed(t.inputBinning, TrueEnergy).numBins
    requires RowWeights(CompHist(t), i, DimNamed(t.inputBinning, TrueEnergy).numBins).Ok?
    requires !spline(DimNamed(t.inputBinning, TrueEnergy), CompHist(t).vals[i],
                     RowWeights(CompHist(t), i, DimNamed(t.inputBinning, TrueEnergy).numBins).value, eFactor, k).Finite?
    ensures Smoothed(t, eFactor, czFactor, spline).Err?
    ensures (forall i' :: 0 <= i' < i ==> SmoothRow(CompHist(t), i', DimNamed(t.inputBinning, TrueEnergy), eFactor, spline).Ok?) ==>
      Smoothed(t, eFactor, czFactor, spline) == Err(AssertionError)
  {
    var h := CompHist(t);
    var czDim := DimNamed(t.inputBinning, TrueCoszen);
    var eDim := DimNamed(t.inputBinning, TrueEnergy);
    assert SmoothRow(h, i, eDim, eFactor, spline) == Err(AssertionError);
    var p := FirstPass(h, czDim.numBins, eDim, eFactor, spline);
    assert p.Err?;
    if forall i' :: 0 <= i' < i ==> SmoothRow(h, i', eDim, eFactor, spline).Ok? {
      var j :| 0 <= j < czDim.numBins && SmoothRow(h, j, eDim, eFactor, spline) == Err(p.error) &&
               (forall i' :: 0 <= i' < j ==> SmoothRow(h, i', eDim, eFactor, spline).Ok?);
      assert j == i;
    }
  }

  // ---------------------------------------------------------------------------
  // Interpolation

  /** `interpolate_transform`: the names of both binnings must agree, in order; the
      interpolant is evaluated at every midpoint of the new binning. */
  function Interpolate(t: Transform, newBinning: MultiDimBinning, kind: string, interp: Interpolant): (r: Result<Transform>)
    requires WellShaped(t) && ValidBinning(newBinning)
    ensures r.Err? <==> Names(t.inputBinning) != Names(newBinning)
    ensures r.Err? ==> r.error == ValueError
    ensures r.Ok? ==> r.value.inputBinning == newBinning && r.value.outputBinning == newBinning
    ensures r.Ok? ==> r.value.inputNames == t.inputNames && r.value.outputName == t.outputName
    ensures r.Ok? ==> r.value.xformArray.Plain? && WellShaped(r.value)
  {
    if Names(t.inputBinning) != Names(newBinning) then Err(ValueError)
    else
      assert |newBinning| == |Names(newBinning)| == 2;
      var grid := seq(newBinning[0].numBins, i requires 0 <= i =>
        seq(newBinning[1].numBins, j requires 0 <= j => interp(t.inputBinning, t.xformArray.vals, kind, newBinning, i, j)));
      Ok(Transform(t.inputNames, t.outputName, newBinning, newBinning, Plain(grid)))
  }
}
