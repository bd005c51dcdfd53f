/** The nominal (cached) part of the effective-area stage: binning validation, the
    missing-dimension volume factor, one raw, smoothed and interpolated transform per
    (group, input flavour, output name) pairing, and clipping of negative values. */
module Nominal {
  import opened Results
  import opened Floats
  import opened Grids
  import opened Binning
  import opened FlavInt
  import opened Transforms
  import opened Smoothing

  /** `np.pi` as a decimal. */
  const Pi: real := 3.141592653589793

  /** One simulated event; the sample is read from the weight file. */
  datatype Event = Event(flavInt: FlavInt, trueEnergy: real, trueCoszen: real, weightedAeff: real)
  type Events = seq<Event>

  /** Per-bin effective area of a group and its error on a binning:
      the weighted histogram divided by (bin volume x missing-dimension factor), and that
      divided by the square root of the unweighted counts, at bin (i, j). */
  type AeffHistogram = (Events, Group, MultiDimBinning, real, nat, nat) -> (Float, Float)

  /** The numerical collaborators of the stage. */
  datatype Numerics = Numerics(spline: SplineFit, interp: Interpolant, histogram: AeffHistogram)

  // ---------------------------------------------------------------------------
  // Binning validation

  predicate KnownDim(name: string)
  {
    name == TrueEnergy || name == TrueCoszen || name == TrueAzimuth
  }

  /** The volume of the dimensions the binning leaves out: the full azimuth range 2*pi
      when azimuth is absent, times the full coszen range 2 when coszen is absent. */
  function MissingDimsVolume(b: MultiDimBinning): (v: real)
    ensures HasDim(b, TrueAzimuth) && HasDim(b, TrueCoszen) ==> v == 1.0
    ensures !HasDim(b, TrueAzimuth) && HasDim(b, TrueCoszen) ==> v == 2.0 * Pi
    ensures HasDim(b, TrueAzimuth) && !HasDim(b, TrueCoszen) ==> v == 2.0
    ensures !HasDim(b, TrueAzimuth) && !HasDim(b, TrueCoszen) ==> v == 4.0 * Pi
  {
    var v := if HasDim(b, TrueAzimuth) then 1.0 else 1.0 * (2.0 * Pi);
    if HasDim(b, TrueCoszen) then v else v * 2.0
  }

  /** The checks before any computation, in source order; on success the volume factor. */
  function ValidateBinning(inB: MultiDimBinning, outB: MultiDimBinning): (r: Result<real>)
    ensures !HasDim(inB, TrueEnergy) ==> r == Err(ValueError)
    ensures (exists i :: 0 <= i < |inB| && !KnownDim(inB[i].name)) ==> r == Err(ValueError)
    ensures HasDim(inB, TrueEnergy) && (forall i :: 0 <= i < |inB| ==> KnownDim(inB[i].name)) && inB != outB ==>
      r == Err(AssertionError)
    ensures r.Ok? <==> inB == outB && |inB| == 2 && HasDim(inB, TrueCoszen) && HasDim(inB, TrueEnergy)
    ensures r.Ok? ==> r.value == 2.0 * Pi
  {
    if !HasDim(inB, TrueEnergy) then Err(ValueError)
    else if exists i :: 0 <= i < |inB| && !KnownDim(inB[i].name) then Err(ValueError)
    else if inB != outB then Err(AssertionError)
    else
      var vol := MissingDimsVolume(inB);
      if !HasDim(inB, TrueCoszen) || !HasDim(inB, TrueEnergy) || |inB| != 2 then Err(AssertionError)
      else
        assert !HasDim(inB, TrueAzimuth) by {
          if HasDim(inB, TrueAzimuth) {
            var i :| 0 <= i < |inB| && inB[i].name == TrueAzimuth;
            assert false;
          }
        }
        Ok(vol)
  }

  // ---------------------------------------------------------------------------
  // The internal smoothing binning

  const SmoothEnergyDim: Dim := Dim(TrueEnergy, true, 1.0, 80.0, 39, "GeV")
  const SmoothCoszenDim: Dim := Dim(TrueCoszen, false, -1.0, 1.0, 40, "dimensionless")

  /** 39 log energy bins over [1, 80] GeV and 40 linear coszen bins over [-1, 1],
      in the axis order of `inB`. */
  function SmoothingBinning(inB: MultiDimBinning): (sb: MultiDimBinning)
    requires |inB| == 2 && HasDim(inB, TrueCoszen) && HasDim(inB, TrueEnergy)
    ensures |sb| == 2 && ValidBinning(sb) && Names(sb) == Names(inB)
    ensures SmoothEnergyDim in sb && SmoothCoszenDim in sb
  {
    if inB[0].name == TrueEnergy then [SmoothEnergyDim, SmoothCoszenDim]
    else [SmoothCoszenDim, SmoothEnergyDim]
  }

  // ---------------------------------------------------------------------------
  // Pairing

  datatype Pair = Pair(group: Group, input: Flav, output: Group)

  /** For one group and input flavour: each output name the group contains, in order. */
  function OutputPairs(g: Group, f: Flav, outs: seq<Group>): seq<Pair>
  {
    if |outs| == 0 then []
    else OutputPairs(g, f, outs[..|outs| - 1]) +
         (if Contains(g, outs[|outs| - 1]) then [Pair(g, f, outs[|outs| - 1])] else [])
  }

  /** For one group: each input name that is a flavour of the group, then its outputs. */
  function GroupPairs(g: Group, ins: seq<Flav>, outs: seq<Group>): seq<Pair>
  {
    if |ins| == 0 then []
    else GroupPairs(g, ins[..|ins| - 1], outs) +
         (if ins[|ins| - 1] in Flavs(g) then OutputPairs(g, ins[|ins| - 1], outs) else [])
  }

  /** All pairings, group by group. */
  function AllPairs(groups: seq<Group>, ins: seq<Flav>, outs: seq<Group>): seq<Pair>
  {
    if |groups| == 0 then []
    else AllPairs(groups[..|groups| - 1], ins, outs) + GroupPairs(groups[|groups| - 1], ins, outs)
  }

  /** A pairing: the group is one of the groups, the input is one of its flavours and
      the output is an output name the group contains. */
  ghost predicate Pairing(p: Pair, groups: seq<Group>, ins: seq<Flav>, outs: seq<Group>)
  {
    p.group in groups && p.input in ins && p.input in Flavs(p.group) &&
    p.output in outs && Contains(p.group, p.output)
  }

  lemma {:induction false} OutputPairsMembers(g: Group, f: Flav, outs: seq<Group>)
    ensures forall p :: p in OutputPairs(g, f, outs) <==>
      p.group == g && p.input == f && p.output in outs && Contains(g, p.output)
  {
    if |outs| > 0 {
      OutputPairsMembers(g, f, outs[..|outs| - 1]);
      assert outs == outs[..|outs| - 1] + [outs[|outs| - 1]];
    }
  }

  lemma {:induction false} GroupPairsMembers(g: Group, ins: seq<Flav>, outs: seq<Group>)
    ensures forall p :: p in GroupPairs(g, ins, outs) <==>
      p.group == g && p.input in ins && p.input in Flavs(g) && p.output in outs && Contains(g, p.output)
  {
    if |ins| > 0 {
      GroupPairsMembers(g, ins[..|ins| - 1], outs);
      OutputPairsMembers(g, ins[|ins| - 1], outs);
      assert ins == ins[..|ins| - 1] + [ins[|ins| - 1]];
    }
  }

  /** The pairings are exactly the (group, input flavour, contained output) combinations. */
  lemma {:induction false} AllPairsMembers(groups: seq<Group>, ins: seq<Flav>, outs: seq<Group>)
    ensures forall p :: p in AllPairs(groups, ins, outs) <==> Pairing(p, groups, ins, outs)
  {
    if |groups| > 0 {
      AllPairsMembers(groups[..|groups| - 1], ins, outs);
      GroupPairsMembers(groups[|groups| - 1], ins, outs);
      assert groups == groups[..|groups| - 1] + [groups[|groups| - 1]];
    }
  }

  lemma {:induction false} OutputPairsPrefix(g: Group, f: Flav, outs: seq<Group>, n: nat)
    requires n <= |outs|
    ensures OutputPairs(g, f, outs[..n]) <= OutputPairs(g, f, outs)
    decreases |outs| - n
  {
    if n < |outs| {
      var init := outs[..|outs| - 1];
      assert init[..n] == outs[..n];
      OutputPairsPrefix(g, f, init, n);
    } else {
      assert outs[..n] == outs;
    }
  }

  lemma {:induction false} GroupPairsPrefix(g: Group, ins: seq<Flav>, outs: seq<Group>, n: nat)
    requires n <= |ins|
    ensures GroupPairs(g, ins[..n], outs) <= GroupPairs(g, ins, outs)
    decreases |ins| - n
  {
    if n < |ins| {
      var init := ins[..|ins| - 1];
      assert init[..n] == ins[..n];
      GroupPairsPrefix(g, init, outs, n);
    } else {
      assert ins[..n] == ins;
    }
  }

  lemma {:induction false} AllPairsPrefix(groups: seq<Group>, ins: seq<Flav>, outs: seq<Group>, n: nat)
    requires n <= |groups|
    ensures AllPairs(groups[..n], ins, outs) <= AllPairs(groups, ins, outs)
    decreases |groups| - n
  {
    if n < |groups| {
      var init := groups[..|groups| - 1];
      assert init[..n] == groups[..n];
      AllPairsPrefix(init, ins, outs, n);
    } else {
      assert groups[..n] == groups;
    }
  }

  /** One more output name considered by the innermost loop. */
  lemma OutputStep(g: Group, f: Flav, outs: seq<Group>, oi: nat)
    requires oi < |outs|
    ensures OutputPairs(g, f, outs[..oi + 1]) ==
      OutputPairs(g, f, outs[..oi]) + (if Contains(g, outs[oi]) then [Pair(g, f, outs[oi])] else [])
  {
    assert outs[..oi + 1][..oi] == outs[..oi];
  }

  /** One more input name considered by the middle loop. */
  lemma GroupStep(g: Group, ins: seq<Flav>, outs: seq<Group>, ii: nat)
    requires ii < |ins|
    ensures GroupPairs(g, ins[..ii + 1], outs) ==
      GroupPairs(g, ins[..ii], outs) + (if ins[ii] in Flavs(g) then OutputPairs(g, ins[ii], outs) else [])
  {
    assert ins[..ii + 1][..ii] == ins[..ii];
  }

  /** One more group considered by the outer loop. */
  lemma AllStep(groups: seq<Group>, ins: seq<Flav>, outs: seq<Group>, gi: nat)
    requires gi < |groups|
    ensures AllPairs(groups[..gi + 1], ins, outs) == AllPairs(groups[..gi], ins, outs) + GroupPairs(groups[gi], ins, outs)
  {
    assert groups[..gi + 1][..gi] == groups[..gi];
  }

  lemma PrefixExtend(a: seq<Pair>, b: seq<Pair>, c: seq<Pair>)
    requires b <= c
    ensures a + b <= a + c
  {
    assert (a + c)[..|a + b|] == a + b;
  }

  /** Within one group: the pairings of the inputs before `ii` and of input `ii`'s
      outputs before `oi` start the group's pairings. */
  lemma GroupDoneIsPrefix(g: Group, ins: seq<Flav>, outs: seq<Group>, ii: nat, oi: nat)
    requires ii < |ins| && oi <= |outs| && ins[ii] in Flavs(g)
    ensures GroupPairs(g, ins[..ii], outs) + OutputPairs(g, ins[ii], outs[..oi]) <= GroupPairs(g, ins, outs)
  {
    var G := GroupPairs(g, ins[..ii], outs);
    var O := OutputPairs(g, ins[ii], outs);
    OutputPairsPrefix(g, ins[ii], outs, oi);
    PrefixExtend(G, OutputPairs(g, ins[ii], outs[..oi]), O);
    GroupStep(g, ins, outs, ii);
    GroupPairsPrefix(g, ins, outs, ii + 1);
    PrefixTrans(G + OutputPairs(g, ins[ii], outs[..oi]), G + O, GroupPairs(g, ins, outs));
  }

  /** A start of group `gi`'s pairings, after those of the groups before it, starts all pairings. */
  lemma AllDoneIsPrefix(groups: seq<Group>, ins: seq<Flav>, outs: seq<Group>, gi: nat, x: seq<Pair>)
    requires gi < |groups| && x <= GroupPairs(groups[gi], ins, outs)
    ensures AllPairs(groups[..gi], ins, outs) + x <= AllPairs(groups, ins, outs)
  {
    var A := AllPairs(groups[..gi], ins, outs);
    PrefixExtend(A, x, GroupPairs(groups[gi], ins, outs));
    AllStep(groups, ins, outs, gi);
    AllPairsPrefix(groups, ins, outs, gi + 1);
    PrefixTrans(A + x, A + GroupPairs(groups[gi], ins, outs), AllPairs(groups, ins, outs));
  }

  /** What the loops have produced at group `gi`, input `ii` (a flavour of the group)
      and output `oi` is a prefix of all pairings. */
  lemma DoneIsPrefix(groups: seq<Group>, ins: seq<Flav>, outs: seq<Group>, gi: nat, ii: nat, oi: nat)
    requires gi < |groups| && ii < |ins| && oi <= |outs|
    requires ins[ii] in Flavs(groups[gi])
    ensures AllPairs(groups[..gi], ins, outs) + GroupPairs(groups[gi], ins[..ii], outs) + OutputPairs(groups[gi], ins[ii], outs[..oi])
        <= AllPairs(groups, ins, outs)
  {
    var A := AllPairs(groups[..gi], ins, outs);
    var G := GroupPairs(groups[gi], ins[..ii], outs);
    var O1 := OutputPairs(groups[gi], ins[ii], outs[..oi]);
    GroupDoneIsPrefix(groups[gi], ins, outs, ii, oi);
    AllDoneIsPrefix(groups, ins, outs, gi, G + O1);
    assert A + G + O1 == A + (G + O1);
  }

  /** In the innermost loop, the pairings produced so far and the next one start `all`. */
  lemma OutputNextIsPrefix(done: seq<Pair>, g: Group, f: Flav, outs: seq<Group>, oi: nat, all: seq<Pair>)
    requires oi < |outs| && Contains(g, outs[oi])
    requires done + OutputPairs(g, f, outs) <= all
    ensures done + OutputPairs(g, f, outs[..oi]) + [Pair(g, f, outs[oi])] <= all
  {
    OutputStep(g, f, outs, oi);
    OutputPairsPrefix(g, f, outs, oi + 1);
    PrefixExtend(done, OutputPairs(g, f, outs[..oi + 1]), OutputPairs(g, f, outs));
    assert done + OutputPairs(g, f, outs[..oi]) + [Pair(g, f, outs[oi])] == done + OutputPairs(g, f, outs[..oi + 1]);
    PrefixTrans(done + OutputPairs(g, f, outs[..oi + 1]), done + OutputPairs(g, f, outs), all);
  }

  /** The pairings of input flavour `ins[ii]` continue the prefix that the middle loop holds. */
  lemma InputNextIsPrefix(done: seq<Pair>, g: Group, ins: seq<Flav>, outs: seq<Group>, ii: nat, all: seq<Pair>)
    requires ii < |ins| && ins[ii] in Flavs(g)
    requires done + GroupPairs(g, ins, outs) <= all
    ensures done + GroupPairs(g, ins[..ii], outs) + OutputPairs(g, ins[ii], outs) <= all
  {
    GroupStep(g, ins, outs, ii);
    GroupPairsPrefix(g, ins, outs, ii + 1);
    PrefixExtend(done, GroupPairs(g, ins[..ii + 1], outs), GroupPairs(g, ins, outs));
    assert done + GroupPairs(g, ins[..ii], outs) + OutputPairs(g, ins[ii], outs) == done + GroupPairs(g, ins[..ii + 1], outs);
    PrefixTrans(done + GroupPairs(g, ins[..ii + 1], outs), done + GroupPairs(g, ins, outs), all);
  }

  /** The innermost loop's record of pairings after output name `outs[oi]`. */
  lemma OutputAdvance(done: seq<Pair>, now: seq<Pair>, g: Group, f: Flav, outs: seq<Group>, oi: nat)
    requires oi < |outs| && now == done + OutputPairs(g, f, outs[..oi])
    ensures Contains(g, outs[oi]) ==> now + [Pair(g, f, outs[oi])] == done + OutputPairs(g, f, outs[..oi + 1])
    ensures !Contains(g, outs[oi]) ==> now == done + OutputPairs(g, f, outs[..oi + 1])
  {
    OutputStep(g, f, outs, oi);
  }

  /** The middle loop's record of pairings after input flavour `ins[ii]`. */
  lemma InputAdvance(done: seq<Pair>, now: seq<Pair>, g: Group, ins: seq<Flav>, outs: seq<Group>, ii: nat)
    requires ii < |ins| && now == done + GroupPairs(g, ins[..ii], outs)
    ensures ins[ii] in Flavs(g) ==> now + OutputPairs(g, ins[ii], outs) == done + GroupPairs(g, ins[..ii + 1], outs)
    ensures ins[ii] !in Flavs(g) ==> now == done + GroupPairs(g, ins[..ii + 1], outs)
  {
    GroupStep(g, ins, outs, ii);
  }

  lemma PrefixTrans(a: seq<Pair>, b: seq<Pair>, c: seq<Pair>)
    requires a <= b && b <= c
    ensures a <= c
  {
    assert c[..|a|] == b[..|a|];
  }

  // ---------------------------------------------------------------------------
  // Per-pair transforms

  /** Everything the per-pair computation reads. */
  datatype Context = Context(
    events: Events, smoothing: MultiDimBinning, vol: real, target: MultiDimBinning,
    eFactor: real, czFactor: real, interpKind: string, numerics: Numerics)

  ghost predicate ContextOk(c: Context)
  {
    |c.smoothing| == 2 && ValidBinning(c.smoothing) && ValidBinning(c.target) &&
    Names(c.target) == Names(c.smoothing)
  }

  /** The raw effective area of a group on the smoothing binning, with errors. */
  function RawHist(c: Context, g: Group): (h: Hist)
    requires |c.smoothing| == 2
    ensures h.Uncertain? && HistShaped(h, c.smoothing[0].numBins, c.smoothing[1].numBins)
  {
    var n0 := c.smoothing[0].numBins;
    var n1 := c.smoothing[1].numBins;
    Uncertain(
      seq(n0, i requires 0 <= i => seq(n1, j requires 0 <= j => c.numerics.histogram(c.events, g, c.smoothing, c.vol, i, j).0)),
      seq(n0, i requires 0 <= i => seq(n1, j requires 0 <= j => c.numerics.histogram(c.events, g, c.smoothing, c.vol, i, j).1)))
  }

  function RawTransform(c: Context, p: Pair): (t: Transform)
    requires ContextOk(c)
    ensures WellShaped(t)
  {
    Transform([p.input], p.output, c.smoothing, c.smoothing, RawHist(c, p.group))
  }

  datatype Triple = Triple(raw: Transform, smoothed: Transform, interpolated: Transform)

  /** Raw, smoothed and interpolated transform of one pairing; interpolation cannot
      fail here because the smoothing binning has the target's axis order. */
  function PairTransforms(c: Context, p: Pair): (r: Result<Triple>)
    requires ContextOk(c)
    ensures r.Err? <==> Smoothed(RawTransform(c, p), c.eFactor, c.czFactor, c.numerics.spline).Err?
    ensures r.Ok? ==> r.value.raw == RawTransform(c, p)
    ensures r.Ok? ==> SmoothedLike(r.value.raw, r.value.smoothed)
    ensures r.Ok? ==> var i := r.value.interpolated;
      i.inputNames == [p.input] && i.outputName == p.output &&
      i.inputBinning == c.target && i.outputBinning == c.target && i.xformArray.Plain? && WellShaped(i)
  {
    var raw := RawTransform(c, p);
    match Smoothed(raw, c.eFactor, c.czFactor, c.numerics.spline)
    case Err(e) => Err(e)
    case Ok(s) =>
      SmoothedShape(raw, c.eFactor, c.czFactor, c.numerics.spline);
      match Interpolate(s, c.target, c.interpKind, c.numerics.interp)
      case Err(e) => Err(e)
      case Ok(i) => Ok(Triple(raw, s, i))
  }

  /** The per-pairing results, in pairing order. */
  function PairResults(c: Context, ps: seq<Pair>): (rs: seq<Result<Triple>>)
    requires ContextOk(c)
    ensures |rs| == |ps| && forall k :: 0 <= k < |ps| ==> rs[k] == PairTransforms(c, ps[k])
  {
    seq(|ps|, k requires 0 <= k < |ps| => PairTransforms(c, ps[k]))
  }

  function Raws(ts: seq<Triple>): (r: seq<Transform>)
    ensures |r| == |ts| && forall k :: 0 <= k < |ts| ==> r[k] == ts[k].raw
  {
    seq(|ts|, k requires 0 <= k < |ts| => ts[k].raw)
  }

  function Smootheds(ts: seq<Triple>): (r: seq<Transform>)
    ensures |r| == |ts| && forall k :: 0 <= k < |ts| ==> r[k] == ts[k].smoothed
  {
    seq(|ts|, k requires 0 <= k < |ts| => ts[k].smoothed)
  }

  function Interpolateds(ts: seq<Triple>): (r: seq<Transform>)
    ensures |r| == |ts| && forall k :: 0 <= k < |ts| ==> r[k] == ts[k].interpolated
  {
    seq(|ts|, k requires 0 <= k < |ts| => ts[k].interpolated)
  }

  function ClipAll(ts: seq<Transform>): (r: seq<Transform>)
    ensures |r| == |ts|
    ensures forall k :: 0 <= k < |ts| ==> r[k] == ClipTransform(ts[k])
  {
    seq(|ts|, k requires 0 <= k < |ts| => ClipTransform(ts[k]))
  }

  datatype NominalSets = NominalSets(raw: seq<Transform>, smoothed: seq<Transform>, interpolated: seq<Transform>)

  /** The three lists before clipping, or the error of the first failing pairing. */
  function UnclippedSets(c: Context, ps: seq<Pair>): (r: Result<NominalSets>)
    requires ContextOk(c)
  {
    match Collect(PairResults(c, ps))
    case Err(e) => Err(e)
    case Ok(ts) => Ok(NominalSets(Raws(ts), Smootheds(ts), Interpolateds(ts)))
  }

  /** The three lists hold, position by position, the transforms of the pairings `done`. */
  ghost predicate Produced(c: Context, done: seq<Pair>, raws: seq<Transform>, smooths: seq<Transform>,
                           interps: seq<Transform>)
    requires ContextOk(c)
  {
    |raws| == |done| && |smooths| == |done| && |interps| == |done| &&
    forall k :: 0 <= k < |done| ==> PairTransforms(c, done[k]) == Ok(Triple(raws[k], smooths[k], interps[k]))
  }

  /** Appending the transforms of one more successful pairing. */
  lemma ProducedAppend(c: Context, done: seq<Pair>, raws: seq<Transform>, smooths: seq<Transform>,
                       interps: seq<Transform>, p: Pair, t: Triple)
    requires ContextOk(c) && Produced(c, done, raws, smooths, interps)
    requires PairTransforms(c, p) == Ok(t)
    ensures Produced(c, done + [p], raws + [t.raw], smooths + [t.smoothed], interps + [t.interpolated])
  {
  }

  /** A pairing whose raw transform smooths successfully yields its three transforms. */
  lemma PairTransformsOk(c: Context, p: Pair, s: Transform)
    requires ContextOk(c) && Smoothed(RawTransform(c, p), c.eFactor, c.czFactor, c.numerics.spline) == Ok(s)
    ensures SmoothedLike(RawTransform(c, p), s) && ValidBinning(c.target)
    ensures Interpolate(s, c.target, c.interpKind, c.numerics.interp).Ok?
    ensures PairTransforms(c, p) == Ok(Triple(RawTransform(c, p), s, Interpolate(s, c.target, c.interpKind, c.numerics.interp).value))
  {
    SmoothedShape(RawTransform(c, p), c.eFactor, c.czFactor, c.numerics.spline);
  }

  /** Lists produced for every pairing are the unclipped sets. */
  lemma ProducedAll(c: Context, ps: seq<Pair>, raws: seq<Transform>, smooths: seq<Transform>, interps: seq<Transform>)
    requires ContextOk(c) && Produced(c, ps, raws, smooths, interps)
    ensures UnclippedSets(c, ps) == Ok(NominalSets(raws, smooths, interps))
  {
    var rs := PairResults(c, ps);
    assert forall k :: 0 <= k < |rs| ==> rs[k].Ok?;
    var ts := Collect(rs).value;
    assert forall k :: 0 <= k < |ts| ==> ts[k] == Triple(raws[k], smooths[k], interps[k]);
    assert Raws(ts) == raws;
    assert Smootheds(ts) == smooths;
    assert Interpolateds(ts) == interps;
  }

  /** When the pairings before `p` all succeeded and `p` fails, the whole computation
      fails with `p`'s error. */
  lemma ProducedThenErr(c: Context, ps: seq<Pair>, done: seq<Pair>, p: Pair,
                        raws: seq<Transform>, smooths: seq<Transform>, interps: seq<Transform>)
    requires ContextOk(c) && Produced(c, done, raws, smooths, interps)
    requires done + [p] <= ps && PairTransforms(c, p).Err?
    ensures UnclippedSets(c, ps) == Err(PairTransforms(c, p).error)
  {
    var rs := PairResults(c, ps);
    assert ps[|done|] == (done + [p])[|done|] == p;
    forall j | 0 <= j < |done|
      ensures rs[j].Ok?
    {
      assert ps[j] == (done + [p])[j] == done[j];
    }
    CollectFirstErr(rs, |done|);
  }

  /** Negative smoothed and interpolated values clipped to zero; raw transforms untouched. */
  function ClipSets(n: NominalSets): NominalSets
  {
    NominalSets(n.raw, ClipAll(n.smoothed), ClipAll(n.interpolated))
  }

  /** The context the pairings are computed in, once the binning has been validated. */
  function NominalContext(events: Events, inB: MultiDimBinning, vol: real, eFactor: real, czFactor: real,
                          kind: string, numerics: Numerics): (c: Context)
    requires ValidBinning(inB) && |inB| == 2 && HasDim(inB, TrueCoszen) && HasDim(inB, TrueEnergy)
    ensures ContextOk(c)
  {
    Context(events, SmoothingBinning(inB), vol, inB, eFactor, czFactor, kind, numerics)
  }

  /** `_compute_nominal_transforms` after the events are loaded. */
  function NominalSpec(events: Events, groups: seq<Group>, ins: seq<Flav>, outs: seq<Group>,
                       inB: MultiDimBinning, outB: MultiDimBinning, eFactor: real, czFactor: real,
                       kind: string, numerics: Numerics): (r: Result<NominalSets>)
    requires ValidBinning(inB)
  {
    match ValidateBinning(inB, outB)
    case Err(e) => Err(e)
    case Ok(vol) =>
      var c := NominalContext(events, inB, vol, eFactor, czFactor, kind, numerics);
      match UnclippedSets(c, AllPairs(groups, ins, outs))
      case Err(e) => Err(e)
      case Ok(n) => Ok(ClipSets(n))
  }

  /** Position `k` of the three lists belongs to pairing `p`: the raw transform carries
      the pairing's names, the smoothed one keeps the raw one's names and binning, the
      interpolated one has those names on the input binning `inB`, and the last two hold
      no negative value. */
  ghost predicate PairedAt(n: NominalSets, k: nat, p: Pair, inB: MultiDimBinning)
    requires k < |n.raw| && k < |n.smoothed| && k < |n.interpolated|
  {
    var raw := n.raw[k];
    var s := n.smoothed[k];
    var i := n.interpolated[k];
    raw.inputNames == [p.input] && raw.outputName == p.output && raw.inputBinning == raw.outputBinning &&
    raw.xformArray.Uncertain? &&
    s.inputNames == [p.input] && s.outputName == p.output &&
    s.inputBinning == raw.inputBinning && s.outputBinning == raw.outputBinning && NonNegative(s.xformArray) &&
    i.inputNames == [p.input] && i.outputName == p.output &&
    i.inputBinning == inB && i.outputBinning == inB && NonNegative(i.xformArray)
  }

  /** What `_compute_nominal_transforms` promises: failed binning checks are reported
      first; on success the three lists have one entry per pairing, in pairing order. */
  lemma NominalMeaning(events: Events, groups: seq<Group>, ins: seq<Flav>, outs: seq<Group>,
                       inB: MultiDimBinning, outB: MultiDimBinning, eFactor: real, czFactor: real,
                       kind: string, numerics: Numerics)
    requires ValidBinning(inB)
    ensures var r := NominalSpec(events, groups, ins, outs, inB, outB, eFactor, czFactor, kind, numerics);
      ValidateBinning(inB, outB).Err? ==> r == Err(ValidateBinning(inB, outB).error)
    ensures var r := NominalSpec(events, groups, ins, outs, inB, outB, eFactor, czFactor, kind, numerics);
      var ps := AllPairs(groups, ins, outs);
      r.Ok? ==> (ValidateBinning(inB, outB).Ok? &&
        |r.value.raw| == |ps| && |r.value.smoothed| == |ps| && |r.value.interpolated| == |ps| &&
        forall k :: 0 <= k < |ps| ==> PairedAt(r.value, k, ps[k], inB))
  {
    var r := NominalSpec(events, groups, ins, outs, inB, outB, eFactor, czFactor, kind, numerics);
    if r.Ok? {
      var vol := ValidateBinning(inB, outB).value;
      var c := NominalContext(events, inB, vol, eFactor, czFactor, kind, numerics);
      var ps := AllPairs(groups, ins, outs);
      var rs := PairResults(c, ps);
      var ts := Collect(rs).value;
      forall k | 0 <= k < |ps|
        ensures PairedAt(r.value, k, ps[k], inB)
      {
        assert rs[k] == Ok(ts[k]);
        ClipHistMeaning(ts[k].smoothed.xformArray);
        ClipHistMeaning(ts[k].interpolated.xformArray);
      }
    }
  }

  /** The unclipped lists fail exactly when some pairing fails, with the first failure. */
  lemma UnclippedFailsAtFirst(c: Context, ps: seq<Pair>)
    requires ContextOk(c)
    ensures UnclippedSets(c, ps).Err? <==> exists k :: 0 <= k < |ps| && PairTransforms(c, ps[k]).Err?
    ensures UnclippedSets(c, ps).Err? ==>
      exists k :: 0 <= k < |ps| && PairTransforms(c, ps[k]) == Err(UnclippedSets(c, ps).error) &&
                  forall j :: 0 <= j < k ==> PairTransforms(c, ps[j]).Ok?
  {
    var rs := PairResults(c, ps);
    if Collect(rs).Err? {
      CollectErrIsFirst(rs);
    }
  }

  /** Once the binning is accepted, `_compute_nominal_transforms` fails exactly when some
      pairing fails to smooth, and then with the error of the first such pairing. */
  lemma NominalFailsAtFirst(events: Events, groups: seq<Group>, ins: seq<Flav>, outs: seq<Group>,
                            inB: MultiDimBinning, outB: MultiDimBinning, eFactor: real, czFactor: real,
                            kind: string, numerics: Numerics)
    requires ValidBinning(inB) && ValidateBinning(inB, outB).Ok?
    ensures var r := NominalSpec(events, groups, ins, outs, inB, outB, eFactor, czFactor, kind, numerics);
      var c := NominalContext(events, inB, ValidateBinning(inB, outB).value, eFactor, czFactor, kind, numerics);
      var ps := AllPairs(groups, ins, outs);
      (r.Err? <==> exists k :: 0 <= k < |ps| && PairTransforms(c, ps[k]).Err?) &&
      (r.Err? ==> exists k :: 0 <= k < |ps| && PairTransforms(c, ps[k]) == Err(r.error) &&
                             forall j :: 0 <= j < k ==> PairTransforms(c, ps[j]).Ok?)
  {
    var c := NominalContext(events, inB, ValidateBinning(inB, outB).value, eFactor, czFactor, kind, numerics);
    var ps := AllPairs(groups, ins, outs);
    NominalSpecUnclipped(events, groups, ins, outs, inB, outB, eFactor, czFactor, kind, numerics);
    UnclippedFailsAtFirst(c, ps);
  }

  /** Once the binning is accepted, the result fails exactly as the unclipped lists do. */
  lemma NominalSpecUnclipped(events: Events, groups: seq<Group>, ins: seq<Flav>, outs: seq<Group>,
                             inB: MultiDimBinning, outB: MultiDimBinning, eFactor: real, czFactor: real,
                             kind: string, numerics: Numerics)
    requires ValidBinning(inB) && ValidateBinning(inB, outB).Ok?
    ensures var r := NominalSpec(events, groups, ins, outs, inB, outB, eFactor, czFactor, kind, numerics);
      var c := NominalContext(events, inB, ValidateBinning(inB, outB).value, eFactor, czFactor, kind, numerics);
      var u := UnclippedSets(c, AllPairs(groups, ins, outs));
      (r.Err? <==> u.Err?) && (r.Err? ==> r.error == u.error)
  {
  }
}
