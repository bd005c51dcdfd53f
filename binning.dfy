/** Histogram binnings: ordered, named axes. */
module Binning {

  const TrueEnergy: string := "true_energy"
  const TrueCoszen: string := "true_coszen"
  const TrueAzimuth: string := "true_azimuth"

  /** One axis: its name, linear or logarithmic spacing, domain, bin count and unit. */
  datatype Dim = Dim(name: string, isLog: bool, lo: real, hi: real, numBins: nat, unit: string)

  /** A multi-dimensional binning; the order of the axes is the order of the array axes. */
  type MultiDimBinning = seq<Dim>

  function Names(b: MultiDimBinning): (ns: seq<string>)
    ensures |ns| == |b|
    ensures forall i :: 0 <= i < |b| ==> ns[i] == b[i].name
  {
    seq(|b|, i requires 0 <= i < |b| => b[i].name)
  }

  /** `name in binning`: the binning has an axis of that name. */
  predicate HasDim(b: MultiDimBinning, name: string)
  {
    exists i :: 0 <= i < |b| && b[i].name == name
  }

  /** Axis names are unique and every axis has at least one bin. */
  predicate ValidBinning(b: MultiDimBinning)
  {
    (forall i, j :: 0 <= i < j < |b| ==> b[i].name != b[j].name) &&
    (forall i :: 0 <= i < |b| ==> b[i].numBins >= 1)
  }
}
