# Smoothed effective areas and the stage pipeline, in Dafny

This project models two parts of PISA, a neutrino oscillation analysis framework.

**The `aeff.smooth` stage** turns a sample of simulated neutrino events into effective-area transforms.
- For each group of flavour/interaction combinations, the events are histogrammed on a fixed internal
  binning: 39 log energy bins over [1, 80] GeV and 40 linear cos(zenith) bins over [-1, 1].
- The histogram is divided by the bin volumes and by the volume of the dimensions the binning lacks.
- Each such raw transform is smoothed in two passes of one-dimensional splines. The first pass goes
  along energy, once per coszen slice, weighted by 1/error with bad errors imputed. The second pass
  goes along coszen, once per energy bin, unweighted.
- The smoothed transform is interpolated onto the user's input binning.
- Negative values are clipped to zero.
- These "nominal" transforms are computed once. Every call then scales each group's array by
  `aeff_scale * livetime`, and also by `nutau_cc_norm` when the group's first matching output is a
  tau charged-current name.

**The template maker** reads a configuration.
- It builds one stage per key and checks the chain as it goes. The first stage takes no input. Every
  later stage takes input, and a declared input binning must equal the previous stage's output binning.
- It then threads map sets through a prefix `stages[:idx]` of the chain.

## How the model is organised

| module | file | what it holds |
|---|---|---|
| `Results` | results.dfy | Python exceptions as `Err` values; `Collect`, which keeps the first error |
| `Floats`, `Grids` | floats.dfy, grids.dfy | bin values (`Finite(real)` or `NaN`), 2-D arrays as rows, transpose, clip, scale |
| `Binning`, `FlavInt`, `Transforms` | binning.dfy, flavint.dfy, transforms.dfy | axes, flavour groups and their names, binned transforms |
| `Smoothing` | smoothing.dfy | `slice_smooth` and `interpolate_transform` as functions |
| `Nominal` | nominal.dfy | binning validation, the pairing order, and the specification of `_compute_nominal_transforms` |
| `Scaling` | scaling.dfy | the specification of `_compute_transforms` |
| `AeffSmooth` | aeff_smooth.dfy | the stage as a class: its loops as methods proved against the functions above |
| `TemplateMaker` | template_maker.dfy | configuration, stage factory, chain checks, and the class with its two loops |

**Loops and state.** Each statement loop of the source (`for`/`while`) is a `method` with invariants, and its `ensures` ties
the result to a specification function. The properties are then proved about that function as lemmas.
The comprehensions (`pisa/stages/aeff/smooth.py:121`, `:196`) are modelled as functions (`Configure`,
`CzFirst`).

**Failures.** Python exceptions become `Result` errors, keeping the same kind:
- `ValueError`;
- `AssertionError` for a failed `assert`;
- `KeyError`;
- `IndexError` for indexing an empty list;
- `UnboundLocalError` for reading `map_set` when no stage ran;
- `NotImplementedError`.

**Numerical collaborators.** The numerical kernels are parameters of type function: the spline fit,
the 2-D interpolant, and the event histogram with its error. They are applied pointwise, so the model
fixes the shape of every array while the values stay opaque. The stage's nested loops
(group × input flavour × output name) are split into one method per loop level: `PairLoops`,
`InputLoop`, `OutputLoop` and `PairStep`.

**Where the code does less than its own comments and branches suggest, the model follows the code.**
- Only the first smoothing pass asserts that its values are finite (`pisa/stages/aeff/smooth.py:266-267`).
  The second pass (lines 274-291) has no such check, so a non-finite value from it goes through.
- The comment at `pisa/stages/aeff/smooth.py:386` says coszen and azimuth are both optional. A binning
  with an azimuth axis does pass the `ValueError` checks for unknown axes (lines 387-392). It is then
  rejected with an `AssertionError`:
  by line 396 when input and output binnings differ, otherwise by the asserts at lines 433-435
  (line 433 for energy × azimuth without coszen, line 435 for three axes).
- The constructor ends with `else: raise ValueError` for an unknown particle kind (line 134). But the
  `particles` check before it is an `assert` (line 100), so an unknown kind raises `AssertionError`
  and that branch is unreachable.

**Behaviour worth knowing.**
- `_compute_transforms` compares the output name's text with `nutau_cc`/`nutaubar_cc` (line 672).
  When grouped flavints are summed, the output names are the group strings themselves (lines 121-122).
  The model writes a group's text as its members' names joined by `+` (see "## Left out"). Under that
  convention no group of two or more members has the text `nutau_cc` or `nutaubar_cc`, so the tau
  normalisation has no effect on such groups. This is proved in `Scaling.SummedGroupsIgnoreNorm`.
  The flavour library's own text may abbreviate a group (a full set of neutral-current flavours can read
  `nuall_nc`). The conclusion then still holds as long as no multi-member group's text is a tau cc name.
- `_compute_nominal_transforms` returns only the interpolated list (line 650). Its counterpart in the
  model is the `interpolated` field of `NominalSpec`'s result. The raw and smoothed lists are also kept,
  because the source stores them on the stage in debug mode (lines 514-516).
- Line 208 reorders a binning to its own order, which is a no-op. It is harmless because
  `slice_smooth` reads the axes by name, and the model reads them by name too.

## Model

| member | source | states |
|---|---|---|
| AeffSmooth.Configure | pisa/stages/aeff/smooth.py:100-134 | Success exactly for `neutrinos`: `muons` gives `NotImplementedError`, any other kind `AssertionError`. The inputs are the six flavours. The outputs are the groups when summing, else the twelve cc/nc names in source order |
| AeffSmooth.AeffSmoothStage.constructor | pisa/stages/aeff/smooth.py:92-134 | A stage built from an accepted configuration records its groups, names, binnings and parameters, and has no events hash yet |
| AeffSmooth.LoadStep | pisa/stages/aeff/smooth.py:159-166 | After loading, the stored hash is the file's hash. The cache is untouched when the hashes already agree; otherwise the events are those the file holds now |
| AeffSmooth.LoadStepIdempotent | pisa/stages/aeff/smooth.py:159-166 | A second load of the same file changes nothing, even if the file's contents changed in between |
| AeffSmooth.AeffSmoothStage.LoadEvents | pisa/stages/aeff/smooth.py:159-166 | The stage's events and hash after the call are `LoadStep` of those before it |
| Smoothing.MoveAxesCancel | pisa/stages/aeff/smooth.py:201-299 | Moving the axes to [coszen, energy] and back gives the caller's array unchanged (no move when already in that order) |
| Smoothing.AxisOrderConsistent | pisa/stages/aeff/smooth.py:196-220 | Entry [c][e] in computation order is the caller's entry at coszen c, energy e, whichever axis comes first; writing back restores that placement |
| Smoothing.MinPositive | pisa/stages/aeff/smooth.py:251 | None exactly when no error is positive; otherwise a positive error of the slice that is at most every positive error |
| Smoothing.SliceWeights | pisa/stages/aeff/smooth.py:244-255 | Fails with `ValueError` exactly when no error in the slice is positive; otherwise one weight per bin |
| Smoothing.ImputedWeights | pisa/stages/aeff/smooth.py:247-253 | Each flagged bin (value or error zero or NaN) gets weight 1/min positive error; every other bin 1/its own error; with non-negative errors every weight is positive |
| Smoothing.ImputedReciprocals | pisa/stages/aeff/smooth.py:252-253 | Bin-by-bin form of the imputation: the substitute for flagged bins, the bin's own error otherwise, all weights positive when errors are non-negative |
| AeffSmooth.ImputeWeights | pisa/stages/aeff/smooth.py:244-255 | The in-place masked assignment and the reciprocal loop compute `SliceWeights` |
| Smoothing.RowWeights | pisa/stages/aeff/smooth.py:222-255 | A slice has weights exactly when the array carries errors, and they are then the slice's `SliceWeights`, one per energy bin. It fails with `ValueError` exactly when no error in the slice is positive |
| Smoothing.SmoothRow | pisa/stages/aeff/smooth.py:236-269 | A successful slice is the weighted spline evaluated at each energy bin, all finite. A weight failure passes through; otherwise the slice fails, with `AssertionError`, exactly when some spline value is not finite |
| Smoothing.NonFiniteIsFatal | pisa/stages/aeff/smooth.py:262-267 | A non-finite first-pass value is never masked: `slice_smooth` then fails, and with every earlier slice smoothed it fails with `AssertionError` |
| Smoothing.FirstPass | pisa/stages/aeff/smooth.py:233-272 | Succeeds exactly when every slice does, with one row per coszen bin of energy-bin length, row i being slice i; on failure, the error of the first failing slice |
| AeffSmooth.FirstPassFailsAt | pisa/stages/aeff/smooth.py:234-267 | When slices before i succeed and slice i fails, the first pass fails with slice i's error |
| AeffSmooth.SmoothCzSlices | pisa/stages/aeff/smooth.py:233-272 | The coszen-slice loop, returning at the first failure, computes `FirstPass` |
| Smoothing.SecondPass | pisa/stages/aeff/smooth.py:274-291 | One column per energy bin, each of coszen-bin length |
| AeffSmooth.SmoothESlices | pisa/stages/aeff/smooth.py:274-288 | The energy-slice loop computes `SecondPass` |
| Smoothing.SmoothedShape | pisa/stages/aeff/smooth.py:192-310 | `slice_smooth` succeeds exactly when both axes exist and every first-pass slice succeeds; it then keeps names and binnings and returns a plain array of the input's shape |
| AeffSmooth.AeffSmoothStage.SliceSmooth | pisa/stages/aeff/smooth.py:168-310 | The method computes `Smoothed` with the stage's factors, and its result keeps the input's names, binnings and shape |
| Smoothing.Interpolate | pisa/stages/aeff/smooth.py:337-369 | `ValueError` exactly when the axis names differ (order included); otherwise the names are kept and the new binning is both input and output binning, with a plain array of its shape |
| Nominal.MissingDimsVolume | pisa/stages/aeff/smooth.py:413-417 | 1 with azimuth and coszen, 2π without azimuth, 2 without coszen, 4π without both |
| Nominal.ValidateBinning | pisa/stages/aeff/smooth.py:381-435 | In source order: no energy axis gives `ValueError`, an unknown axis `ValueError`, input ≠ output `AssertionError`. It succeeds exactly for equal binnings of exactly coszen and energy, with factor 2π |
| Nominal.SmoothingBinning | pisa/stages/aeff/smooth.py:437-443 | The 39-bin energy and 40-bin coszen axes, in the input binning's axis order |
| Nominal.OutputPairsMembers | pisa/stages/aeff/smooth.py:482-484 | For one group and input flavour, the pairings are exactly the output names the group contains |
| Nominal.GroupPairsMembers | pisa/stages/aeff/smooth.py:478-484 | For one group, the pairings are exactly (input name that is a flavour of the group, output name it contains) |
| Nominal.AllPairsMembers | pisa/stages/aeff/smooth.py:448-484 | Across groups, a pairing occurs exactly when its group is declared, its input is a flavour of the group and its output is contained in the group |
| Nominal.RawHist | pisa/stages/aeff/smooth.py:451-474 | The raw effective area of a group carries errors and has the smoothing binning's shape |
| Nominal.PairTransforms | pisa/stages/aeff/smooth.py:485-495 | A pairing fails exactly when smoothing fails; otherwise the smoothed transform is shaped like the raw one, and the interpolated one has the pairing's names on the input binning |
| AeffSmooth.AeffSmoothStage.PairStep | pisa/stages/aeff/smooth.py:485-498 | The innermost loop body computes `PairTransforms` of its pairing |
| AeffSmooth.AeffSmoothStage.OutputLoop | pisa/stages/aeff/smooth.py:482-498 | The output-name loop appends exactly the transforms of its pairings, in order; on failure it returns the error of the whole computation |
| AeffSmooth.AeffSmoothStage.InputLoop | pisa/stages/aeff/smooth.py:478-498 | The input-name loop appends exactly the transforms of the group's pairings, in order; on failure it returns the error of the whole computation |
| AeffSmooth.AeffSmoothStage.PairLoops | pisa/stages/aeff/smooth.py:445-498 | The three nested loops compute the unclipped lists over all pairings, or the first pairing's error |
| Floats.Clip | pisa/stages/aeff/smooth.py:506 | Negative values become 0; non-negative values and NaN are unchanged |
| Transforms.ClipHist | pisa/stages/aeff/smooth.py:506 | Clipping changes only values, keeping kind and errors |
| Transforms.ClipHistMeaning | pisa/stages/aeff/smooth.py:504-508 | After clipping, no value is negative, and clipping again changes nothing |
| Nominal.ClipAll | pisa/stages/aeff/smooth.py:504-508 | Every transform of the list is clipped, position by position |
| AeffSmooth.ClipTransforms | pisa/stages/aeff/smooth.py:504-508 | The in-place clipping loop computes `ClipAll` |
| Nominal.NominalMeaning | pisa/stages/aeff/smooth.py:381-508 | A failed binning check is reported first. On success the raw, smoothed and interpolated lists all have one entry per pairing, in pairing order. Each entry carries its pairing's names; smoothed entries keep the raw binning; interpolated entries are on the input binning; neither holds a negative value |
| Nominal.NominalFailsAtFirst | pisa/stages/aeff/smooth.py:445-498 | Once the binning is accepted, the computation fails exactly when some pairing fails, and with the first failing pairing's error |
| AeffSmooth.AeffSmoothStage.NominalTransforms | pisa/stages/aeff/smooth.py:381-508 | Checks, loops and clipping compute `NominalSpec` on the stage's events and parameters |
| AeffSmooth.AeffSmoothStage.ComputeNominalTransforms | pisa/stages/aeff/smooth.py:374-508 | The event cache is updated as by `load_events`, then the result is `NominalSpec` on the events now held; the list the source returns (line 650) is its `interpolated` field |
| Scaling.Matching | pisa/stages/aeff/smooth.py:666-668 | The transforms of a group are exactly those whose first input is a flavour of the group and whose output the group contains |
| Scaling.FirstMatch | pisa/stages/aeff/smooth.py:666-671 | None exactly when nothing matches; otherwise the earliest matching transform |
| Scaling.GroupOutputsStep | pisa/stages/aeff/smooth.py:666-682 | Per transform: the group's array is fixed by the first match and unchanged after, and each match appends one output with that array |
| Scaling.GroupOutputsMeaning | pisa/stages/aeff/smooth.py:662-684 | A group yields one output per matching transform, in order, with that transform's names and binnings. Every output carries the array of the group's first match |
| Scaling.GroupArrayMeaning | pisa/stages/aeff/smooth.py:669-674 | The group's array is its first match's array, same kind and shape, each value times `scale`, or times `scale * nutau_cc_norm` when that first output name is a tau cc name |
| FlavInt.NutauCCNameMeaning | pisa/stages/aeff/smooth.py:672 | An output name is `nutau_cc` or `nutaubar_cc` exactly when it is the single tau or anti-tau charged-current combination |
| FlavInt.PlusInGroupName | pisa/stages/aeff/smooth.py:121-122 | In the model's text convention for groups (members joined by `+`), the text of a group of two or more members contains `+`, so it is never a tau cc name |
| Scaling.GroupOutputsIgnoreNorm | pisa/stages/aeff/smooth.py:672-674 | When no output name is a tau cc name, a group's outputs do not depend on the tau normalisation |
| Scaling.SummedGroupsIgnoreNorm | pisa/stages/aeff/smooth.py:661-684 | When every output name has two or more members, as summed groups of several members do (lines 121-122), the scaled transforms equal those with normalisation 1 |
| Scaling.ScaledTransforms | pisa/stages/aeff/smooth.py:661-684 | `IndexError` exactly when there is a group and either some group is empty or some transform has no input name; otherwise the outputs of every group, group by group |
| AeffSmooth.MatchStep | pisa/stages/aeff/smooth.py:667-682 | The inner loop body: on a match, the array is fixed if not yet set and one output carries it; otherwise nothing is appended |
| AeffSmooth.GroupTransforms | pisa/stages/aeff/smooth.py:663-682 | The loop over nominal transforms fails with `IndexError` exactly when one has no input name; otherwise it yields the group's outputs |
| AeffSmooth.ScaleGroups | pisa/stages/aeff/smooth.py:661-684 | The group loop computes `ScaledTransforms` |
| AeffSmooth.AeffSmoothStage.ComputeTransforms | pisa/stages/aeff/smooth.py:653-684 | The result is `ScaledTransforms` with factor `aeff_scale * livetime_s` and the stage's tau normalisation |
| TemplateMaker.Lower | pisa/template_maker.py:16 | Lowercasing keeps the length and maps each ASCII capital to its small letter |
| TemplateMaker.LowerTwice | pisa/template_maker.py:16 | Lowercasing a lowercased name changes nothing |
| TemplateMaker.Made | pisa/template_maker.py:16-23 | `KeyError` when the lowercased key has no entry or the entry has no `service`; otherwise the factory's result for that key, service and entry |
| TemplateMaker.AdmitMeaning | pisa/template_maker.py:24-33 | A stage passes the checks exactly when appending it keeps the chain valid: first stage no-input, later stages input, a declared input binning equal to the previous declared output binning. Failures are `AssertionError` |
| TemplateMaker.BuildStops | pisa/template_maker.py:15-34 | After the first failure, further keys change nothing |
| TemplateMaker.BuildMeaning | pisa/template_maker.py:13-34 | The built stages are a valid chain made key by key from the first key. Construction succeeds exactly when every key is used. A failure is the error of the next key's stage: it either could not be made or broke the chain |
| TemplateMaker.BuildSucceedsIff | pisa/template_maker.py:24-34 | When every key yields a stage, construction succeeds exactly when those stages form a valid chain, and then keeps all of them in key order |
| TemplateMaker.TemplateMaker.constructor | pisa/template_maker.py:9-11 | The maker holds the configuration and no stages before `init_stages` |
| TemplateMaker.TemplateMaker.InitStages | pisa/template_maker.py:13-34 | The stages and the error after the loop are those of `Build` over all keys; stages appended before a failure stay |
| TemplateMaker.SliceEnd | pisa/template_maker.py:39 | Python's `[:idx]` end: the whole list for None, a clamped count for idx ≥ 0, counted from the end for idx < 0 |
| TemplateMaker.Run | pisa/template_maker.py:39-44 | Running n stages yields n map sets |
| TemplateMaker.RunMeaning | pisa/template_maker.py:39-44 | The first stage is called with nothing, each later one with the previous output; running fewer stages gives a prefix of the outputs |
| TemplateMaker.OutputMeaning | pisa/template_maker.py:36-50 | With `all_map_sets`, one map set per stage run (possibly none); otherwise the last of those, and `UnboundLocalError` exactly when no stage runs |
| TemplateMaker.TemplateMaker.GetOutputMapSet | pisa/template_maker.py:36-50 | The loop over `stages[:idx]` computes `OutputOf` |

## Left out

- The spline fits, the 2-D interpolant, event histogramming, bin volumes and the error of the raw
  histogram (`splrep`, `splev`, `interp2d`, `Events.histogram`, `bin_volumes`, `unp.uarray`) are
  function-valued parameters. They are floating-point library code, so the model fixes only the shape
  of what they return.
- Bin midpoints and units are not computed (`.to(...)`, `m_as`, log midpoints). An axis is its name,
  spacing, domain, bin count and unit. Arbitrary edge lists are not represented.
- Smoothing.Interpolate: the interpolant is total. `interp2d` raises `ValueError` for an unsupported
  `interp_kind` (lines 349 and 354-359), which is not modelled. So the "`ValueError` exactly when the axis
  names differ" holds only for a supported kind.
- Nominal.NominalFailsAtFirst: the spline fit, the interpolant and the histogram are assumed never to
  raise. So "fails exactly when some pairing fails" covers only the failures the stage's own code
  raises, and an unsupported `interp_kind` is not among them.
- Floating point: values are exact reals or NaN. Infinity, rounding and the `uncertainties` error
  propagation are not modelled.
- The debug-mode block (`pisa/stages/aeff/smooth.py:513-648`) only computes statistics and plots.
- pisa/utils/plotter.py and nutau/slopes.py (plotting and a script) are not part of this model.
- Logging, `print` and `@profile` are left out.
- `hash_obj` is an injective hash of the file name. The file's contents are a `disk` parameter read at
  the time of the call.
- `flavintGroupsFromString` and the flavour library (`pisa/utils/flavInt.py`) are not part of this
  model. A group is a sequence of flavour/interaction combinations. Its text is the members' names
  joined by `+`, and "name in group" means every member of the name is in the group.
- The `Stage` base class (`pisa/stage.py`) is not part of this model. Its caching, hashing and
  parameter checks are left out, as is the expected-parameter list. `Params` holds exactly the seven
  parameters.
- AeffSmooth.AeffSmoothStage.constructor: requires an accepted configuration. The rejected
  configurations are stated by `AeffSmooth.Configure`, because a Dafny constructor cannot return an
  error.
- Binnings are assumed well formed: unique axis names and at least one bin per axis. An empty coszen
  axis, which would make `shape[1]` fail at line 276, cannot occur.
- The template maker's module lookup and class instantiation (`importlib`, `getattr`,
  `stage_name.title()`, lines 19-23) are an abstract factory. The factory is given the lowercased key,
  the service and the entry, and returns a stage or an error.
- Stage objects are values. A stage's identity, its own state and its `get_output_map_set` are an
  opaque function from an optional map set to a map set.
- TemplateMaker.TemplateMaker.constructor: stops before the call to `init_stages`, which
  `InitStages` models, because a Dafny constructor cannot return the error that call may raise.
- TemplateMaker.Lower: lowercases ASCII letters only. Python's Unicode case mapping is not modelled.
- The `__main__` block of pisa/template_maker.py (argument parsing and file I/O) is left out.
