/** The per-call part of the effective-area stage: every nominal transform of a group
    becomes an output transform carrying the group's first match, scaled. */
module Scaling {
  import opened Results
  import opened Floats
  import opened Grids
  import opened Binning
  import opened FlavInt
  import opened Transforms

  /** A nominal transform belongs to a group: its first input name is a flavour of the
      group and the group contains its output name. */
  predicate Matches(g: Group, t: Transform)
  {
    |t.inputNames| > 0 && t.inputNames[0] in Flavs(g) && Contains(g, t.outputName)
  }

  /** The nominal transforms of a group, in order. */
  function Matching(g: Group, ts: seq<Transform>): (r: seq<Transform>)
    ensures forall t :: t in r <==> t in ts && Matches(g, t)
  {
    if |ts| == 0 then []
    else
      var init := ts[..|ts| - 1];
      assert ts == init + [ts[|ts| - 1]];
      Matching(g, init) + (if Matches(g, ts[|ts| - 1]) then [ts[|ts| - 1]] else [])
  }

  /** The first nominal transform of a group. */
  function FirstMatch(g: Group, ts: seq<Transform>): (r: Option<Transform>)
    ensures r.None? <==> forall k :: 0 <= k < |ts| ==> !Matches(g, ts[k])
    ensures r.Some? ==> exists k :: 0 <= k < |ts| && ts[k] == r.value && Matches(g, ts[k]) &&
                                    (forall j :: 0 <= j < k ==> !Matches(g, ts[j]))
  {
    if |ts| == 0 then None
    else
      var init := ts[..|ts| - 1];
      match FirstMatch(g, init)
      case Some(t) => Some(t)
      case None => if Matches(g, ts[|ts| - 1]) then Some(ts[|ts| - 1]) else None
  }

  /** The array of a group: the first match's array times `aeff_scale * livetime_s`, and
      times the tau normalisation when that first match's output name is
      `nutau_cc` or `nutaubar_cc`. */
  function GroupArray(first: Transform, scale: real, nutauCCNorm: real): Hist
  {
    var a := ScaleHist(first.xformArray, scale);
    if IsNutauCCName(first.outputName) then ScaleHist(a, nutauCCNorm) else a
  }

  /** The output transform for nominal `t`: its names and binnings with the group's array. */
  function Relabel(t: Transform, a: Hist): Transform
  {
    Transform(t.inputNames, t.outputName, t.inputBinning, t.outputBinning, a)
  }

  /** The output transforms of one group, one per match, in nominal order. */
  function GroupOutputs(g: Group, ts: seq<Transform>, scale: real, nutauCCNorm: real): seq<Transform>
  {
    if |ts| == 0 then []
    else
      var init := ts[..|ts| - 1];
      var t := ts[|ts| - 1];
      GroupOutputs(g, init, scale, nutauCCNorm) +
        (if Matches(g, t) then [Relabel(t, GroupArray(FirstMatch(g, ts).value, scale, nutauCCNorm))] else [])
  }

  /** The group's array once some transform of `ts` has matched, None before. */
  function FirstArray(g: Group, ts: seq<Transform>, scale: real, nutauCCNorm: real): Option<Hist>
  {
    match FirstMatch(g, ts)
    case None => None
    case Some(f) => Some(GroupArray(f, scale, nutauCCNorm))
  }

  /** The group's array after looking at `t`: fixed by the first match, unchanged after. */
  function NextArray(g: Group, a: Option<Hist>, t: Transform, scale: real, nutauCCNorm: real): Option<Hist>
  {
    if a.None? && Matches(g, t) then Some(GroupArray(t, scale, nutauCCNorm)) else a
  }

  /** One more nominal transform considered by the group loop: the group's array is fixed
      by the first match, and a match appends one output carrying that array. */
  lemma GroupOutputsStep(g: Group, ts: seq<Transform>, n: nat, scale: real, nutauCCNorm: real)
    requires n < |ts|
    ensures FirstArray(g, ts[..n + 1], scale, nutauCCNorm) ==
      NextArray(g, FirstArray(g, ts[..n], scale, nutauCCNorm), ts[n], scale, nutauCCNorm)
    ensures Matches(g, ts[n]) ==> FirstArray(g, ts[..n + 1], scale, nutauCCNorm).Some?
    ensures GroupOutputs(g, ts[..n + 1], scale, nutauCCNorm) ==
      GroupOutputs(g, ts[..n], scale, nutauCCNorm) +
        (if Matches(g, ts[n]) then [Relabel(ts[n], FirstArray(g, ts[..n + 1], scale, nutauCCNorm).value)] else [])
  {
    assert ts[..n + 1][..n] == ts[..n];
  }

  /** `_compute_transforms`: the outputs of every group, group by group. */
  function AllOutputs(groups: seq<Group>, ts: seq<Transform>, scale: real, nutauCCNorm: real): seq<Transform>
  {
    if |groups| == 0 then []
    else AllOutputs(groups[..|groups| - 1], ts, scale, nutauCCNorm) +
         GroupOutputs(groups[|groups| - 1], ts, scale, nutauCCNorm)
  }

  /** One output per match, with the match's names and binnings, all carrying the array
      computed from the group's first match. */
  lemma {:induction false} GroupOutputsMeaning(g: Group, ts: seq<Transform>, scale: real, nutauCCNorm: real)
    ensures |Matching(g, ts)| > 0 <==> FirstMatch(g, ts).Some?
    ensures var out := GroupOutputs(g, ts, scale, nutauCCNorm); var m := Matching(g, ts);
      |out| == |m| &&
      forall k :: 0 <= k < |m| ==>
        out[k].inputNames == m[k].inputNames && out[k].outputName == m[k].outputName &&
        out[k].inputBinning == m[k].inputBinning && out[k].outputBinning == m[k].outputBinning &&
        out[k].xformArray == GroupArray(FirstMatch(g, ts).value, scale, nutauCCNorm)
  {
    if |ts| > 0 {
      var init, t := ts[..|ts| - 1], ts[|ts| - 1];
      GroupOutputsMeaning(g, init, scale, nutauCCNorm);
      if |Matching(g, init)| > 0 {
        assert Matching(g, init)[0] in Matching(g, init);
        assert FirstMatch(g, init).Some?;
        assert FirstMatch(g, ts) == FirstMatch(g, init);
      }
      var out, m := GroupOutputs(g, ts, scale, nutauCCNorm), Matching(g, ts);
      var outInit, mInit := GroupOutputs(g, init, scale, nutauCCNorm), Matching(g, init);
      if Matches(g, t) {
        var a := GroupArray(FirstMatch(g, ts).value, scale, nutauCCNorm);
        assert out == outInit + [Relabel(t, a)];
        assert m == mInit + [t];
        forall k | 0 <= k < |m|
          ensures out[k].inputNames == m[k].inputNames && out[k].outputName == m[k].outputName &&
                  out[k].inputBinning == m[k].inputBinning && out[k].outputBinning == m[k].outputBinning &&
                  out[k].xformArray == a
        {
          if k < |mInit| {
            assert out[k] == outInit[k] && m[k] == mInit[k];
          }
        }
      } else {
        assert out == outInit && m == mInit;
      }
    }
  }

  /** A group's array is its first match's array with every value multiplied by
      `scale`, or by `scale * nutauCCNorm` when that match's output name is a tau
      charged-current name; the array keeps its kind and shape. */
  lemma GroupArrayMeaning(first: Transform, scale: real, nutauCCNorm: real)
    ensures var a := GroupArray(first, scale, nutauCCNorm); var h := first.xformArray;
      var factor := if IsNutauCCName(first.outputName) then scale * nutauCCNorm else scale;
      a.Plain? == h.Plain? && |a.vals| == |h.vals| &&
      forall i :: 0 <= i < |h.vals| ==>
        |a.vals[i]| == |h.vals[i]| &&
        forall j :: 0 <= j < |h.vals[i]| ==> a.vals[i][j] == Scale(h.vals[i][j], factor)
  {
    var h := first.xformArray;
    if IsNutauCCName(first.outputName) {
      forall i, j | 0 <= i < |h.vals| && 0 <= j < |h.vals[i]|
        ensures ScaleGrid(ScaleGrid(h.vals, scale), nutauCCNorm)[i][j] == Scale(h.vals[i][j], scale * nutauCCNorm)
      {
        ScaleScale(h.vals[i][j], scale, nutauCCNorm);
      }
    }
  }

  /** The tau normalisation only matters through tau charged-current output names: when
      no nominal transform carries one, every group's outputs are the same whatever the
      normalisation. */
  lemma {:induction false} GroupOutputsIgnoreNorm(g: Group, ts: seq<Transform>, scale: real, norm1: real, norm2: real)
    requires forall k :: 0 <= k < |ts| ==> !IsNutauCCName(ts[k].outputName)
    ensures GroupOutputs(g, ts, scale, norm1) == GroupOutputs(g, ts, scale, norm2)
  {
    if |ts| > 0 {
      GroupOutputsIgnoreNorm(g, ts[..|ts| - 1], scale, norm1, norm2);
    }
  }

  lemma {:induction false} AllOutputsIgnoreNorm(groups: seq<Group>, ts: seq<Transform>, scale: real, norm1: real, norm2: real)
    requires forall k :: 0 <= k < |ts| ==> !IsNutauCCName(ts[k].outputName)
    ensures AllOutputs(groups, ts, scale, norm1) == AllOutputs(groups, ts, scale, norm2)
  {
    if |groups| > 0 {
      AllOutputsIgnoreNorm(groups[..|groups| - 1], ts, scale, norm1, norm2);
      GroupOutputsIgnoreNorm(groups[|groups| - 1], ts, scale, norm1, norm2);
    }
  }

  /** With summed groups the output names are the groups themselves, so when every
      group has two or more members the tau normalisation has no effect at all. */
  lemma SummedGroupsIgnoreNorm(groups: seq<Group>, ts: seq<Transform>, scale: real, norm: real)
    requires forall k :: 0 <= k < |ts| ==> |ts[k].outputName| >= 2
    ensures ScaledTransforms(groups, ts, scale, norm) == ScaledTransforms(groups, ts, scale, 1.0)
  {
    forall k | 0 <= k < |ts|
      ensures !IsNutauCCName(ts[k].outputName)
    {
      NutauCCNameMeaning(ts[k].outputName);
    }
    AllOutputsIgnoreNorm(groups, ts, scale, norm, 1.0);
  }

  /** `_compute_transforms`: an `IndexError` as soon as a group is empty or, once there is
      a group to match against, a nominal transform has no input name; otherwise the
      outputs of every group. */
  function ScaledTransforms(groups: seq<Group>, ts: seq<Transform>, scale: real, nutauCCNorm: real): (r: Result<seq<Transform>>)
    ensures r.Err? <==> (|groups| > 0 &&
      ((exists k :: 0 <= k < |groups| && |groups[k]| == 0) || (exists k :: 0 <= k < |ts| && |ts[k].inputNames| == 0)))
    ensures r.Err? ==> r.error == IndexError
    ensures r.Ok? ==> r.value == AllOutputs(groups, ts, scale, nutauCCNorm)
  {
    if |groups| > 0 &&
       ((exists k :: 0 <= k < |groups| && |groups[k]| == 0) || (exists k :: 0 <= k < |ts| && |ts[k].inputNames| == 0))
    then Err(IndexError)
    else Ok(AllOutputs(groups, ts, scale, nutauCCNorm))
  }
}
