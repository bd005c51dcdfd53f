/** Binned transforms: a named array over a binning, with optional per-bin errors. */
module Transforms {
  import opened Floats
  import opened Grids
  import opened Binning
  import opened FlavInt

  /** The array of a transform: plain values, or values with standard deviations
      (an array of `uncertainties` numbers). */
  datatype Hist = Plain(vals: Grid) | Uncertain(vals: Grid, errs: Grid)

  datatype Transform = Transform(
    inputNames: seq<Flav>,
    outputName: Group,
    inputBinning: MultiDimBinning,
    outputBinning: MultiDimBinning,
    xformArray: Hist)

  ghost predicate HistShaped(h: Hist, rows: nat, cols: nat)
  {
    IsRect(h.vals, rows, cols) && (h.Uncertain? ==> IsRect(h.errs, rows, cols))
  }

  /** A two-dimensional transform whose array has the shape of its input binning. */
  ghost predicate WellShaped(t: Transform)
  {
    |t.inputBinning| == 2 && ValidBinning(t.inputBinning) &&
    HistShaped(t.xformArray, t.inputBinning[0].numBins, t.inputBinning[1].numBins)
  }

  /** `array.clip(0)`, applied to the values. */
  function ClipHist(h: Hist): (r: Hist)
    ensures r.Plain? <==> h.Plain?
    ensures r.vals == ClipGrid(h.vals)
    ensures h.Uncertain? ==> r.errs == h.errs
  {
    match h
    case Plain(v) => Plain(ClipGrid(v))
    case Uncertain(v, e) => Uncertain(ClipGrid(v), e)
  }

  /** No finite value of the array is negative. */
  ghost predicate NonNegative(h: Hist)
  {
    forall i, j :: 0 <= i < |h.vals| && 0 <= j < |h.vals[i]| && h.vals[i][j].Finite? ==> h.vals[i][j].val >= 0.0
  }

  /** Clipping leaves no negative value and a second clip changes nothing. */
  lemma ClipHistMeaning(h: Hist)
    ensures NonNegative(ClipHist(h))
    ensures ClipHist(ClipHist(h)) == ClipHist(h)
  {
    ClipGridTwice(h.vals);
  }

  function ClipTransform(t: Transform): (r: Transform)
    ensures r.inputNames == t.inputNames && r.outputName == t.outputName
    ensures r.inputBinning == t.inputBinning && r.outputBinning == t.outputBinning
    ensures r.xformArray == ClipHist(t.xformArray)
  {
    t.(xformArray := ClipHist(t.xformArray))
  }

  /** `array * c`: values scale by `c`, standard deviations by `|c|`. */
  function ScaleHist(h: Hist, c: real): Hist
  {
    match h
    case Plain(v) => Plain(ScaleGrid(v, c))
    case Uncertain(v, e) => Uncertain(ScaleGrid(v, c), ScaleGrid(e, if c < 0.0 then -c else c))
  }
}
