/** The effective-area stage that smooths its transforms (`aeff.smooth`): construction,
    the event cache, the imperative smoothing loop, the nominal transforms and the
    per-call scaling. */
module AeffSmooth {
  import opened Results
  import opened Floats
  import opened Grids
  import opened Binning
  import opened FlavInt
  import opened Transforms
  import opened Smoothing
  import opened Nominal
  import opened Scaling

  /** Exactly the seven parameters of the stage, in computation units
      (livetime in seconds, smoothing factors and scale dimensionless). */
  datatype Params = Params(
    aeffWeightFile: string,
    livetimeSeconds: real,
    aeffScale: real,
    aeffESmoothFactor: real,
    aeffCzSmoothFactor: real,
    interpKind: string,
    nutauCCNorm: real)

  /** The factor every nominal array is scaled by: `aeff_scale * livetime_s`. */
  function ScaleFactor(p: Params): real
  {
    p.aeffScale * p.livetimeSeconds
  }

  datatype StageNames = StageNames(inputNames: seq<Flav>, outputNames: seq<Group>)

  /** The checks and names of the constructor: only neutrinos are supported; the
      outputs are the groups themselves when grouped flavints are summed, otherwise the
      twelve charged- and neutral-current names. */
  function Configure(particles: string, groups: seq<Group>, sumGroupedFlavints: bool): (r: Result<StageNames>)
    ensures r.Ok? <==> particles == "neutrinos"
    ensures particles == "muons" ==> r == Err(NotImplementedError)
    ensures particles != "neutrinos" && particles != "muons" ==> r == Err(AssertionError)
    ensures r.Ok? ==> r.value.inputNames == NeutrinoInputs
    ensures r.Ok? && sumGroupedFlavints ==> r.value.outputNames == groups
    ensures r.Ok? && !sumGroupedFlavints ==> r.value.outputNames == FlavIntOutputs
  {
    if particles != "neutrinos" && particles != "muons" then Err(AssertionError)
    else if particles == "neutrinos" then
      Ok(StageNames(NeutrinoInputs, if sumGroupedFlavints then groups else FlavIntOutputs))
    else Err(NotImplementedError)
  }

  /** `hash_obj` of the weight-file name: injective. */
  datatype Hash = HashOf(obj: string)

  /** The cached events and the hash they were loaded under. */
  datatype EventCache = EventCache(events: Events, hash: Option<Hash>)

  /** `load_events`: reload only when the hash of the file name differs from the stored
      one; `disk` gives the events the file holds at the time of the call. */
  function LoadStep(cache: EventCache, file: string, disk: string -> Events): (r: EventCache)
    ensures r.hash == Some(HashOf(file))
    ensures cache.hash == Some(HashOf(file)) ==> r == cache
    ensures cache.hash != Some(HashOf(file)) ==> r.events == disk(file)
  {
    var thisHash := HashOf(file);
    if cache.hash == Some(thisHash) then cache
    else EventCache(disk(file), Some(thisHash))
  }

  /** A second load of the same file changes nothing, even if its contents changed on disk. */
  lemma LoadStepIdempotent(cache: EventCache, file: string, disk: string -> Events, disk': string -> Events)
    ensures LoadStep(LoadStep(cache, file, disk), file, disk') == LoadStep(cache, file, disk)
  {
  }

  /** Fit weights of one coszen slice: the minimum positive error, the masked
      assignment of it to every flagged bin, and the reciprocals. */
  method ImputeWeights(vals: seq<Float>, errs: seq<Float>) returns (r: Result<seq<real>>)
    requires |vals| == |errs|
    ensures r == SliceWeights(vals, errs)
  {
    var minErr := MinPositive(errs);
    if minErr.None? {
      return Err(ValueError);
    }
    var m := minErr.value;
    ghost var imputed := Imputed(vals, errs, m);
    var err := new Float[|errs|](k requires 0 <= k < |errs| => errs[k]);
    var k := 0;
    while k < err.Length
      invariant 0 <= k <= err.Length
      invariant forall i :: 0 <= i < k ==> err[i] == imputed[i]
      invariant forall i :: k <= i < err.Length ==> err[i] == errs[i]
    {
      if Flagged(vals[k], err[k]) {
        err[k] := Finite(m);
      }
      k := k + 1;
    }
    var weights: seq<real> := [];
    k := 0;
    while k < err.Length
      invariant 0 <= k <= err.Length
      invariant err[..] == imputed
      invariant weights == Reciprocals(imputed)[..k]
    {
      weights := weights + [1.0 / err[k].val];
      k := k + 1;
    }
    assert weights == Reciprocals(imputed);
    return Ok(weights);
  }

  /** The first pass fails with the error of its first failing slice. */
  lemma FirstPassFailsAt(h: Hist, n: nat, i: nat, eDim: Dim, eFactor: real, spline: SplineFit)
    requires i < n <= |h.vals| && HistShaped(h, |h.vals|, eDim.numBins)
    requires forall j :: 0 <= j < i ==> SmoothRow(h, j, eDim, eFactor, spline).Ok?
    requires SmoothRow(h, i, eDim, eFactor, spline).Err?
    ensures FirstPass(h, n, eDim, eFactor, spline) == Err(SmoothRow(h, i, eDim, eFactor, spline).error)
  {
    var r := FirstPass(h, n, eDim, eFactor, spline);
    assert r.Err?;
    var k :| 0 <= k < n && SmoothRow(h, k, eDim, eFactor, spline) == Err(r.error) &&
             forall j :: 0 <= j < k ==> SmoothRow(h, j, eDim, eFactor, spline).Ok?;
    assert k == i;
  }

  /** The first pass of `slice_smooth`: one smoothed row per coszen slice, each checked
      to be finite. */
  method SmoothCzSlices(hist: Hist, nCz: nat, ebins: Dim, eSmoothFactor: real, spline: SplineFit)
    returns (r: Result<Grid>)
    requires nCz <= |hist.vals| && HistShaped(hist, |hist.vals|, ebins.numBins)
    ensures r == FirstPass(hist, nCz, ebins, eSmoothFactor, spline)
  {
    var smoothedCzSlices: Grid := [];
    var index := 0;
    while index < nCz
      invariant 0 <= index <= nCz
      invariant FirstPass(hist, index, ebins, eSmoothFactor, spline) == Ok(smoothedCzSlices)
    {
      var weights: Option<seq<real>> := None;
      if hist.Uncertain? {
        var w := ImputeWeights(hist.vals[index], hist.errs[index]);
        if w.Err? {
          FirstPassFailsAt(hist, nCz, index, ebins, eSmoothFactor, spline);
          return Err(w.error);
        }
        weights := Some(w.value);
      }
      var smoothedCzSlice := seq(ebins.numBins, k requires 0 <= k =>
        spline(ebins, hist.vals[index], weights, eSmoothFactor, k));
      if !AllFinite(smoothedCzSlice) {
        FirstPassFailsAt(hist, nCz, index, ebins, eSmoothFactor, spline);
        return Err(AssertionError);
      }
      smoothedCzSlices := smoothedCzSlices + [smoothedCzSlice];
      index := index + 1;
    }
    return Ok(smoothedCzSlices);
  }

  /** The second pass of `slice_smooth`: one unweighted smoothed column per energy bin. */
  method SmoothESlices(smoothedCzSlices: Grid, czbins: Dim, czSmoothFactor: real, spline: SplineFit, nE: nat)
    returns (smoothedESlices: Grid)
    requires czbins.numBins >= 1 && IsRect(smoothedCzSlices, czbins.numBins, nE)
    ensures smoothedESlices == SecondPass(smoothedCzSlices, czbins, czSmoothFactor, spline, nE)
  {
    ghost var second := SecondPass(smoothedCzSlices, czbins, czSmoothFactor, spline, nE);
    smoothedESlices := [];
    var eSliceNum := 0;
    while eSliceNum < |smoothedCzSlices[0]|
      invariant 0 <= eSliceNum <= nE
      invariant smoothedESlices == second[..eSliceNum]
    {
      var eSlice := Column(smoothedCzSlices, eSliceNum);
      var smoothedAeff := seq(czbins.numBins, i requires 0 <= i =>
        spline(czbins, eSlice, None, czSmoothFactor, i));
      smoothedESlices := smoothedESlices + [smoothedAeff];
      eSliceNum := eSliceNum + 1;
    }
    assert smoothedESlices == second;
  }

  /** The clipping loop: each transform's array replaced by its clipped copy. */
  method ClipTransforms(ts: seq<Transform>) returns (r: seq<Transform>)
    ensures r == ClipAll(ts)
  {
    r := ts;
    var k := 0;
    while k < |r|
      invariant 0 <= k <= |r| == |ts|
      invariant forall j :: 0 <= j < k ==> r[j] == ClipTransform(ts[j])
      invariant forall j :: k <= j < |r| ==> r[j] == ts[j]
    {
      r := r[k := ClipTransform(r[k])];
      k := k + 1;
    }
  }

  /** The inner loop of `_compute_transforms` for one group: `aeffTransform` stays unset
      until the first match, whose scaled array every match then carries. */
  method GroupTransforms(xformFlavints: Group, nominalTransforms: seq<Transform>, scale: real, nutauCCNorm: real)
    returns (r: Result<seq<Transform>>)
    ensures r.Err? <==> exists k :: 0 <= k < |nominalTransforms| && |nominalTransforms[k].inputNames| == 0
    ensures r.Err? ==> r.error == IndexError
    ensures r.Ok? ==> r.value == GroupOutputs(xformFlavints, nominalTransforms, scale, nutauCCNorm)
  {
    var flavNames := Flavs(xformFlavints);
    var aeffTransform: Option<Hist> := None;
    var newTransforms: seq<Transform> := [];
    var ti := 0;
    while ti < |nominalTransforms|
      invariant 0 <= ti <= |nominalTransforms|
      invariant forall k :: 0 <= k < ti ==> |nominalTransforms[k].inputNames| > 0
      invariant aeffTransform == FirstArray(xformFlavints, nominalTransforms[..ti], scale, nutauCCNorm)
      invariant newTransforms == GroupOutputs(xformFlavints, nominalTransforms[..ti], scale, nutauCCNorm)
    {
      var transform := nominalTransforms[ti];
      if |transform.inputNames| == 0 {
        assert |nominalTransforms[ti].inputNames| == 0;
        return Err(IndexError);
      }
      GroupOutputsStep(xformFlavints, nominalTransforms, ti, scale, nutauCCNorm);
      var out;
      aeffTransform, out := MatchStep(xformFlavints, flavNames, transform, aeffTransform, scale, nutauCCNorm);
      newTransforms := newTransforms + out;
      ti := ti + 1;
    }
    assert nominalTransforms[..ti] == nominalTransforms;
    return Ok(newTransforms);
  }

  /** The body of the inner loop of `_compute_transforms` for a transform with an input
      name: on a match, the group's array is computed when it is not yet known, and the
      transform's output carries it. */
  method MatchStep(xformFlavints: Group, flavNames: set<Flav>, transform: Transform, aeffTransform: Option<Hist>,
                   scale: real, nutauCCNorm: real)
    returns (a: Option<Hist>, out: seq<Transform>)
    requires flavNames == Flavs(xformFlavints) && |transform.inputNames| > 0
    ensures a == NextArray(xformFlavints, aeffTransform, transform, scale, nutauCCNorm)
    ensures Matches(xformFlavints, transform) ==> a.Some? && out == [Relabel(transform, a.value)]
    ensures !Matches(xformFlavints, transform) ==> out == []
  {
    a, out := aeffTransform, [];
    if transform.inputNames[0] in flavNames && Contains(xformFlavints, transform.outputName) {
      if a.None? {
        var arr := ScaleHist(transform.xformArray, scale);
        if IsNutauCCName(transform.outputName) {
          arr := ScaleHist(arr, nutauCCNorm);
        }
        a := Some(arr);
      }
      out := [Relabel(transform, a.value)];
    }
  }

  /** The group loop of `_compute_transforms`: for each group, the array of its first
      matching nominal transform is scaled once (and normalised for a tau charged-current
      output name), then every matching nominal transform yields an output with that array. */
  method ScaleGroups(groups: seq<Group>, nominalTransforms: seq<Transform>, scale: real, nutauCCNorm: real)
    returns (r: Result<seq<Transform>>)
    ensures r == ScaledTransforms(groups, nominalTransforms, scale, nutauCCNorm)
  {
    var newTransforms: seq<Transform> := [];
    var gi := 0;
    while gi < |groups|
      invariant 0 <= gi <= |groups|
      invariant forall k :: 0 <= k < gi ==> |groups[k]| > 0
      invariant gi > 0 ==> forall k :: 0 <= k < |nominalTransforms| ==> |nominalTransforms[k].inputNames| > 0
      invariant newTransforms == AllOutputs(groups[..gi], nominalTransforms, scale, nutauCCNorm)
    {
      var xformFlavints := groups[gi];
      if |xformFlavints| == 0 {
        return Err(IndexError);
      }
      var groupTransforms := GroupTransforms(xformFlavints, nominalTransforms, scale, nutauCCNorm);
      if groupTransforms.Err? {
        return Err(groupTransforms.error);
      }
      newTransforms := newTransforms + groupTransforms.value;
      assert groups[..gi + 1][..gi] == groups[..gi];
      gi := gi + 1;
    }
    assert groups[..gi] == groups;
    assert !(exists k :: 0 <= k < |groups| && |groups[k]| == 0);
    assert |groups| > 0 ==> !(exists k :: 0 <= k < |nominalTransforms| && |nominalTransforms[k].inputNames| == 0);
    return Ok(newTransforms);
  }

  class AeffSmoothStage {
    const particles: string
    const transformGroups: seq<Group>
    const inputNames: seq<Flav>
    const outputNames: seq<Group>
    const inputBinning: MultiDimBinning
    const outputBinning: MultiDimBinning
    /** The fitting, interpolation and histogramming collaborators. */
    const numerics: Numerics
    var params: Params
    var events: Events
    var eventsHash: Option<Hash>

    ghost predicate Valid()
    {
      ValidBinning(inputBinning) && ValidBinning(outputBinning)
    }

    /** A stage whose configuration passed `Configure`; no events are loaded yet. */
    constructor (particles: string, transformGroups: seq<Group>, sumGroupedFlavints: bool, params: Params,
                 inputBinning: MultiDimBinning, outputBinning: MultiDimBinning, numerics: Numerics)
      requires Configure(particles, transformGroups, sumGroupedFlavints).Ok?
      requires ValidBinning(inputBinning) && ValidBinning(outputBinning)
      ensures Valid()
      ensures this.particles == particles && this.transformGroups == transformGroups
      ensures this.inputNames == NeutrinoInputs
      ensures this.outputNames == Configure(particles, transformGroups, sumGroupedFlavints).value.outputNames
      ensures this.inputBinning == inputBinning && this.outputBinning == outputBinning
      ensures this.params == params && this.numerics == numerics
      ensures eventsHash.None?
    {
      var names := Configure(particles, transformGroups, sumGroupedFlavints).value;
      this.particles := particles;
      this.transformGroups := transformGroups;
      this.inputNames := names.inputNames;
      this.outputNames := names.outputNames;
      this.inputBinning := inputBinning;
      this.outputBinning := outputBinning;
      this.numerics := numerics;
      this.params := params;
      this.events := [];
      this.eventsHash := None;
    }

    /** `load_events`. */
    method LoadEvents(disk: string -> Events)
      modifies this`events, this`eventsHash
      ensures EventCache(events, eventsHash) == LoadStep(old(EventCache(events, eventsHash)), params.aeffWeightFile, disk)
    {
      var evts := params.aeffWeightFile;
      var thisHash := HashOf(evts);
      if Some(thisHash) == eventsHash {
        return;
      }
      events := disk(evts);
      eventsHash := Some(thisHash);
    }

    /** `slice_smooth`: the first pass slice by slice over coszen, the second column by
      column over energy, in [coszen, energy] order and moved back. */
    method SliceSmooth(xform: Transform) returns (r: Result<Transform>)
      requires WellShaped(xform)
      ensures r == Smoothed(xform, params.aeffESmoothFactor, params.aeffCzSmoothFactor, numerics.spline)
      ensures r.Ok? ==> SmoothedLike(xform, r.value)
    {
      SmoothedShape(xform, params.aeffESmoothFactor, params.aeffCzSmoothFactor, numerics.spline);
      var xformBinning := xform.inputBinning;
      if !HasDim(xformBinning, TrueCoszen) || !HasDim(xformBinning, TrueEnergy) {
        return Err(ValueError);
      }
      var czFirst := CzFirst(xformBinning);
      var hist := CompHist(xform);
      var eSmoothFactor := params.aeffESmoothFactor;
      var czSmoothFactor := params.aeffCzSmoothFactor;
      var spline := numerics.spline;
      var czbins := DimNamed(xformBinning, TrueCoszen);
      var ebins := DimNamed(xformBinning, TrueEnergy);

      var smoothedCzSlices := SmoothCzSlices(hist, czbins.numBins, ebins, eSmoothFactor, spline);
      if smoothedCzSlices.Err? {
        return Err(smoothedCzSlices.error);
      }
      var smoothedESlices := SmoothESlices(smoothedCzSlices.value, czbins, czSmoothFactor, spline, ebins.numBins);
      var smoothedHist := Transpose(smoothedESlices, czbins.numBins);
      if !czFirst {
        smoothedHist := Transpose(smoothedHist, ebins.numBins);
      }
      return Ok(Transform(xform.inputNames, xform.outputName, xform.inputBinning, xform.outputBinning,
                          Plain(smoothedHist)));
    }

    /** The requirements every loop level of `_compute_nominal_transforms` shares: the
        context is this stage's. */
    ghost predicate OwnContext(c: Context)
      reads this
    {
      Valid() && ContextOk(c) &&
      c.events == events && c.target == inputBinning && c.numerics == numerics &&
      c.eFactor == params.aeffESmoothFactor && c.czFactor == params.aeffCzSmoothFactor &&
      c.interpKind == params.interpKind
    }

    /** The body of the innermost loop: the raw transform of one pairing, smoothed by
        `slice_smooth` and interpolated back to the input binning. */
    method PairStep(c: Context, xformFlavints: Group, aeffTransform: Hist, inputName: Flav, outputName: Group)
      returns (r: Result<Triple>)
      requires OwnContext(c) && aeffTransform == RawHist(c, xformFlavints)
      ensures r == PairTransforms(c, Pair(xformFlavints, inputName, outputName))
    {
      ghost var p := Pair(xformFlavints, inputName, outputName);
      var xform := Transform([inputName], outputName, c.smoothing, c.smoothing, aeffTransform);
      assert xform == RawTransform(c, p);
      var smoothTransform := SliceSmooth(xform);
      if smoothTransform.Err? {
        return Err(smoothTransform.error);
      }
      PairTransformsOk(c, p, smoothTransform.value);
      var interpTransform := Interpolate(smoothTransform.value, inputBinning, params.interpKind, numerics.interp);
      return Ok(Triple(xform, smoothTransform.value, interpTransform.value));
    }

    /** The innermost loop: for input flavour `inputName` of group `xformFlavints`, each
        output name the group contains, raw, smoothed and interpolated transforms are
        appended to `sets`; `done` are the pairings `sets` already holds and `all` the
        pairings the whole computation goes through. */
    method OutputLoop(c: Context, xformFlavints: Group, aeffTransform: Hist, inputName: Flav,
                      sets: NominalSets, ghost done: seq<Pair>, ghost all: seq<Pair>)
      returns (r: Result<NominalSets>)
      requires OwnContext(c) && aeffTransform == RawHist(c, xformFlavints)
      requires Produced(c, done, sets.raw, sets.smoothed, sets.interpolated)
      requires done + OutputPairs(xformFlavints, inputName, outputNames) <= all
      ensures r.Ok? ==> Produced(c, done + OutputPairs(xformFlavints, inputName, outputNames),
                                 r.value.raw, r.value.smoothed, r.value.interpolated)
      ensures r.Err? ==> UnclippedSets(c, all) == Err(r.error)
    {
      var outs := outputNames;
      var rawTransforms, smoothTransforms, interpTransforms := sets.raw, sets.smoothed, sets.interpolated;
      ghost var now := done;
      var oi := 0;
      while oi < |outs|
        invariant 0 <= oi <= |outs|
        invariant now == done + OutputPairs(xformFlavints, inputName, outs[..oi])
        invariant Produced(c, now, rawTransforms, smoothTransforms, interpTransforms)
      {
        var outputName := outs[oi];
        OutputAdvance(done, now, xformFlavints, inputName, outs, oi);
        if Contains(xformFlavints, outputName) {
          ghost var p := Pair(xformFlavints, inputName, outputName);
          var triple := PairStep(c, xformFlavints, aeffTransform, inputName, outputName);
          if triple.Err? {
            OutputNextIsPrefix(done, xformFlavints, inputName, outs, oi, all);
            ProducedThenErr(c, all, now, p, rawTransforms, smoothTransforms, interpTransforms);
            return Err(triple.error);
          }
          ProducedAppend(c, now, rawTransforms, smoothTransforms, interpTransforms, p, triple.value);
          rawTransforms := rawTransforms + [triple.value.raw];
          smoothTransforms := smoothTransforms + [triple.value.smoothed];
          interpTransforms := interpTransforms + [triple.value.interpolated];
          now := now + [p];
        }
        oi := oi + 1;
      }
      assert outs[..oi] == outs;
      return Ok(NominalSets(rawTransforms, smoothTransforms, interpTransforms));
    }

    /** The middle loop: for group `xformFlavints`, the raw histogram once, then the
        innermost loop for each input name that is a flavour of the group. */
    method InputLoop(c: Context, xformFlavints: Group, sets: NominalSets, ghost done: seq<Pair>, ghost all: seq<Pair>)
      returns (r: Result<NominalSets>)
      requires OwnContext(c)
      requires Produced(c, done, sets.raw, sets.smoothed, sets.interpolated)
      requires done + GroupPairs(xformFlavints, inputNames, outputNames) <= all
      ensures r.Ok? ==> Produced(c, done + GroupPairs(xformFlavints, inputNames, outputNames),
                                 r.value.raw, r.value.smoothed, r.value.interpolated)
      ensures r.Err? ==> UnclippedSets(c, all) == Err(r.error)
    {
      var ins, outs := inputNames, outputNames;
      var aeffTransform := RawHist(c, xformFlavints);
      var flavNames := Flavs(xformFlavints);
      var acc := sets;
      ghost var now := done;
      var ii := 0;
      while ii < |ins|
        invariant 0 <= ii <= |ins|
        invariant now == done + GroupPairs(xformFlavints, ins[..ii], outs)
        invariant Produced(c, now, acc.raw, acc.smoothed, acc.interpolated)
      {
        var inputName := ins[ii];
        InputAdvance(done, now, xformFlavints, ins, outs, ii);
        if inputName in flavNames {
          InputNextIsPrefix(done, xformFlavints, ins, outs, ii, all);
          var next := OutputLoop(c, xformFlavints, aeffTransform, inputName, acc, now, all);
          if next.Err? {
            return next;
          }
          acc := next.value;
          now := now + OutputPairs(xformFlavints, inputName, outs);
        }
        ii := ii + 1;
      }
      assert ins[..ii] == ins;
      return Ok(acc);
    }

    /** The loops of `_compute_nominal_transforms`: for every group, each input flavour of
        the group and each output name the group contains, the raw transform on the
        smoothing binning, its smoothed version and that interpolated to the input
        binning, appended in loop order; the first failing smoothing ends the loops. */
    method PairLoops(c: Context) returns (r: Result<NominalSets>)
      requires OwnContext(c)
      ensures r == UnclippedSets(c, AllPairs(transformGroups, inputNames, outputNames))
    {
      var groups := transformGroups;
      ghost var all := AllPairs(groups, inputNames, outputNames);
      var acc := NominalSets([], [], []);
      ghost var done: seq<Pair> := [];
      var gi := 0;
      while gi < |groups|
        invariant 0 <= gi <= |groups|
        invariant done == AllPairs(groups[..gi], inputNames, outputNames)
        invariant Produced(c, done, acc.raw, acc.smoothed, acc.interpolated)
      {
        AllStep(groups, inputNames, outputNames, gi);
        AllPairsPrefix(groups, inputNames, outputNames, gi + 1);
        var next := InputLoop(c, groups[gi], acc, done, all);
        if next.Err? {
          return next;
        }
        acc := next.value;
        done := done + GroupPairs(groups[gi], inputNames, outputNames);
        gi := gi + 1;
      }
      assert groups[..gi] == groups;
      ProducedAll(c, done, acc.raw, acc.smoothed, acc.interpolated);
      return Ok(acc);
    }

    /** `_compute_nominal_transforms` once the events are loaded: the binning checks in
        source order, the pairing loops, then negative values clipped to zero in the
        smoothed and interpolated transforms. */
    method NominalTransforms() returns (r: Result<NominalSets>)
      requires Valid()
      ensures r == NominalSpec(events, transformGroups, inputNames, outputNames, inputBinning, outputBinning,
                               params.aeffESmoothFactor, params.aeffCzSmoothFactor, params.interpKind, numerics)
    {
      if !HasDim(inputBinning, TrueEnergy) {
        return Err(ValueError);
      }
      if exists i :: 0 <= i < |inputBinning| && !KnownDim(inputBinning[i].name) {
        return Err(ValueError);
      }
      if inputBinning != outputBinning {
        return Err(AssertionError);
      }
      var missingDimsVol := 1.0;
      if !HasDim(inputBinning, TrueAzimuth) {
        missingDimsVol := missingDimsVol * (2.0 * Pi);
      }
      if !HasDim(inputBinning, TrueCoszen) {
        missingDimsVol := missingDimsVol * 2.0;
      }
      if !HasDim(inputBinning, TrueCoszen) || !HasDim(inputBinning, TrueEnergy) || |inputBinning| != 2 {
        return Err(AssertionError);
      }
      assert missingDimsVol == MissingDimsVolume(inputBinning);
      var c := NominalContext(events, inputBinning, missingDimsVol, params.aeffESmoothFactor,
                              params.aeffCzSmoothFactor, params.interpKind, numerics);
      assert OwnContext(c);
      var sets := PairLoops(c);
      if sets.Err? {
        return Err(sets.error);
      }
      var smoothTransforms := ClipTransforms(sets.value.smoothed);
      var interpTransforms := ClipTransforms(sets.value.interpolated);
      return Ok(NominalSets(sets.value.raw, smoothTransforms, interpTransforms));
    }

    /** `_compute_nominal_transforms`: load the events (or keep the cache), then compute. */
    method ComputeNominalTransforms(disk: string -> Events) returns (r: Result<NominalSets>)
      requires Valid()
      modifies this`events, this`eventsHash
      ensures EventCache(events, eventsHash) == LoadStep(old(EventCache(events, eventsHash)), params.aeffWeightFile, disk)
      ensures r == NominalSpec(events, transformGroups, inputNames, outputNames, inputBinning, outputBinning,
                               params.aeffESmoothFactor, params.aeffCzSmoothFactor, params.interpKind, numerics)
    {
      LoadEvents(disk);
      r := NominalTransforms();
    }

    /** `_compute_transforms`: every group scaled by `aeff_scale * livetime_s`. */
    method ComputeTransforms(nominalTransforms: seq<Transform>) returns (r: Result<seq<Transform>>)
      ensures r == ScaledTransforms(transformGroups, nominalTransforms, ScaleFactor(params), params.nutauCCNorm)
    {
      r := ScaleGroups(transformGroups, nominalTransforms, ScaleFactor(params), params.nutauCCNorm);
    }
  }
}
