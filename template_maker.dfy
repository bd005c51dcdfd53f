/** The stage pipeline: a configuration turned into an ordered chain of stages, and map
    sets threaded through a prefix of that chain. Map sets are of an arbitrary type `M`. */
module TemplateMaker {
  import opened Results
  import opened Binning

  /** The keyword arguments of one stage, as given in the configuration. */
  type Entry = map<string, string>

  /** The configuration dictionary: its keys in iteration order and its entries. */
  datatype Config = Config(keys: seq<string>, entries: map<string, Entry>)

  /** A dictionary: each key once, and exactly the keys that have entries. */
  ghost predicate ConfigOk(c: Config)
  {
    (forall i, j :: 0 <= i < j < |c.keys| ==> c.keys[i] != c.keys[j]) &&
    (forall k :: k in c.entries <==> k in c.keys)
  }

  /** A stage object as the pipeline sees it: which of the two base classes it is an
      instance of, the binnings it declares (absent when it has no such attribute), and
      its own `get_output_map_set`, which a first stage is called with no argument.
      An attribute that exists but holds `None` passes `hasattr`; it is written `Some([])`,
      which, like `None == None`, equals only another binning written the same way. */
  datatype Stage<!M> = Stage(
    isNoInputStage: bool,
    isInputStage: bool,
    inputBinning: Option<MultiDimBinning>,
    outputBinning: Option<MultiDimBinning>,
    produce: Option<M> -> M)

  /** Locating the stage's module and class and instantiating it with the entry's
      keyword arguments: given the lowercased stage name, the service and the entry. */
  type Factory<!M> = (string, string, Entry) -> Result<Stage<M>>

  // ---------------------------------------------------------------------------
  // Lowercasing (ASCII letters)

  function LowerChar(c: char): (r: char)
    ensures 'A' <= c <= 'Z' ==> r as int == c as int + 32
    ensures !('A' <= c <= 'Z') ==> r == c
    ensures !('A' <= r <= 'Z')
  {
    if 'A' <= c <= 'Z' then (c as int + 32) as char else c
  }

  /** `str.lower()` on ASCII text. */
  function Lower(s: string): (r: string)
    ensures |r| == |s| && forall i :: 0 <= i < |s| ==> r[i] == LowerChar(s[i])
  {
    seq(|s|, i requires 0 <= i < |s| => LowerChar(s[i]))
  }

  /** Lowercasing twice is lowercasing once, so a lowercase key is looked up as itself. */
  lemma LowerTwice(s: string)
    ensures Lower(Lower(s)) == Lower(s)
  {
    var l := Lower(s);
    assert forall i :: 0 <= i < |l| ==> LowerChar(l[i]) == l[i];
  }

  // ---------------------------------------------------------------------------
  // Building the chain

  /** One stage made from configuration key `name`: the entry under the lowercased key,
      its `service`, then the factory. */
  function Made<M>(c: Config, factory: Factory<M>, name: string): (r: Result<Stage<M>>)
    ensures Lower(name) !in c.entries ==> r == Err(KeyError)
    ensures Lower(name) in c.entries && "service" !in c.entries[Lower(name)] ==> r == Err(KeyError)
    ensures Lower(name) in c.entries && "service" in c.entries[Lower(name)] ==>
      r == factory(Lower(name), c.entries[Lower(name)]["service"], c.entries[Lower(name)])
  {
    var key := Lower(name);
    if key !in c.entries then Err(KeyError)
    else if "service" !in c.entries[key] then Err(KeyError)
    else factory(key, c.entries[key]["service"], c.entries[key])
  }

  /** The checks on stage `s` at position `|ss|` after the stages `ss`. */
  function Admit<M>(ss: seq<Stage<M>>, s: Stage<M>): Option<Error>
  {
    if |ss| == 0 then (if s.isNoInputStage then None else Some(AssertionError))
    else if !s.isInputStage then Some(AssertionError)
    else if s.inputBinning.Some? && ss[|ss| - 1].outputBinning.None? then Some(AssertionError)
    else if s.inputBinning.Some? && s.inputBinning != ss[|ss| - 1].outputBinning then Some(AssertionError)
    else None
  }

  /** A chain the pipeline accepts: the first stage takes no input, every later one takes
      input, and a later stage that declares an input binning follows a stage declaring
      the same output binning. */
  ghost predicate ValidChain<M>(ss: seq<Stage<M>>)
  {
    (|ss| > 0 ==> ss[0].isNoInputStage) &&
    forall k :: 0 < k < |ss| ==>
      ss[k].isInputStage && (ss[k].inputBinning.Some? ==> ss[k - 1].outputBinning == ss[k].inputBinning)
  }

  lemma AdmitMeaning<M>(ss: seq<Stage<M>>, s: Stage<M>)
    requires ValidChain(ss)
    ensures Admit(ss, s).None? <==> ValidChain(ss + [s])
    ensures Admit(ss, s).Some? ==> Admit(ss, s) == Some(AssertionError)
  {
    var ext := ss + [s];
    assert forall k :: 0 <= k < |ss| ==> ext[k] == ss[k];
    assert ext[|ss|] == s;
    if |ss| > 0 {
      assert ext[|ss| - 1] == ss[|ss| - 1];
    }
  }

  lemma ValidChainPrefix<M>(ss: seq<Stage<M>>, m: nat)
    requires m <= |ss| && ValidChain(ss)
    ensures ValidChain(ss[..m])
  {
    var p := ss[..m];
    assert forall k :: 0 <= k < m ==> p[k] == ss[k];
  }

  /** The stages built so far and the error that stopped construction, if any. */
  datatype Built<!M> = Built(stages: seq<Stage<M>>, error: Option<Error>)

  /** `init_stages` over the first `n` keys: stages are appended until the first key
      whose stage cannot be made or fails a check; those already appended stay. */
  function Build<M>(c: Config, factory: Factory<M>, n: nat): Built<M>
    requires n <= |c.keys|
  {
    if n == 0 then Built([], None)
    else
      var b := Build(c, factory, n - 1);
      if b.error.Some? then b
      else
        match Made(c, factory, c.keys[n - 1])
        case Err(e) => Built(b.stages, Some(e))
        case Ok(s) =>
          match Admit(b.stages, s)
          case Some(e) => Built(b.stages, Some(e))
          case None => Built(b.stages + [s], None)
  }

  /** Once construction has failed, later keys change nothing. */
  lemma {:induction false} BuildStops<M>(c: Config, factory: Factory<M>, n: nat, m: nat)
    requires n <= m <= |c.keys| && Build(c, factory, n).error.Some?
    ensures Build(c, factory, m) == Build(c, factory, n)
  {
    if m > n {
      BuildStops(c, factory, n, m - 1);
    }
  }

  /** The stages `ss` are made, one by one, from the first `n` keys. */
  ghost predicate AllMade<M>(c: Config, factory: Factory<M>, n: nat, ss: seq<Stage<M>>)
    requires n <= |c.keys|
  {
    |ss| == n && forall k :: 0 <= k < n ==> Made(c, factory, c.keys[k]) == Ok(ss[k])
  }

  /** What is built is always an accepted chain, made key by key from the start of the
      configuration; construction stops at the key right after the last stage built,
      and succeeds exactly when every key is used. */
  lemma {:induction false} BuildMeaning<M>(c: Config, factory: Factory<M>, n: nat)
    requires n <= |c.keys|
    ensures var b := Build(c, factory, n);
      |b.stages| <= n && ValidChain(b.stages) && AllMade(c, factory, |b.stages|, b.stages) &&
      (b.error.None? <==> |b.stages| == n) &&
      (b.error.Some? ==>
        var next := Made(c, factory, c.keys[|b.stages|]);
        (next.Err? && b.error == Some(next.error)) ||
        (next.Ok? && b.error == Admit(b.stages, next.value) && !ValidChain(b.stages + [next.value])))
  {
    if n > 0 {
      BuildMeaning(c, factory, n - 1);
      var b := Build(c, factory, n - 1);
      if b.error.None? {
        match Made(c, factory, c.keys[n - 1])
        case Err(e) =>
        case Ok(s) =>
          AdmitMeaning(b.stages, s);
      }
    }
  }

  /** When every one of the first `n` keys yields a stage, construction over them
      succeeds exactly when those stages form an accepted chain, and then keeps them all. */
  lemma {:induction false} BuildSucceedsIff<M>(c: Config, factory: Factory<M>, n: nat, ss: seq<Stage<M>>)
    requires n <= |c.keys| && AllMade(c, factory, n, ss)
    ensures Build(c, factory, n).error.None? <==> ValidChain(ss)
    ensures Build(c, factory, n).error.None? ==> Build(c, factory, n).stages == ss
  {
    if n > 0 {
      var init := ss[..n - 1];
      var s := ss[n - 1];
      assert ss == init + [s];
      assert AllMade(c, factory, n - 1, init) by {
        assert forall k :: 0 <= k < n - 1 ==> init[k] == ss[k];
      }
      BuildSucceedsIff(c, factory, n - 1, init);
      var b := Build(c, factory, n - 1);
      assert Made(c, factory, c.keys[n - 1]) == Ok(s);
      if b.error.None? {
        AdmitMeaning(init, s);
      } else if ValidChain(ss) {
        ValidChainPrefix(ss, n - 1);
      }
    }
  }

  // ---------------------------------------------------------------------------
  // Running the chain

  /** Python's `seq[:idx]` end: all of it for `None`, a count from the end for a negative
      index, clamped to the length. */
  function SliceEnd(n: nat, idx: Option<int>): (e: nat)
    ensures e <= n
    ensures idx.None? ==> e == n
    ensures idx.Some? && idx.value >= 0 ==> e == (if idx.value < n then idx.value else n)
    ensures idx.Some? && idx.value < 0 ==> e == (if n + idx.value > 0 then n + idx.value else 0)
  {
    match idx
    case None => n
    case Some(i) =>
      if i >= 0 then (if i < n then i else n)
      else if n + i > 0 then n + i else 0
  }

  /** The map sets of the first `n` stages: the first is called with nothing, each later
      one with the previous one's output. */
  function Run<M>(ss: seq<Stage<M>>, n: nat): (ms: seq<M>)
    requires n <= |ss|
    ensures |ms| == n
  {
    if n == 0 then []
    else
      var prev := Run(ss, n - 1);
      prev + [ss[n - 1].produce(if n == 1 then None else Some(prev[n - 2]))]
  }

  /** Each output is its stage applied to the previous output, and running fewer stages
      gives a prefix of the outputs. */
  lemma {:induction false} RunMeaning<M>(ss: seq<Stage<M>>, n: nat)
    requires n <= |ss|
    ensures n > 0 ==> Run(ss, n)[0] == ss[0].produce(None)
    ensures forall k :: 0 < k < n ==> Run(ss, n)[k] == ss[k].produce(Some(Run(ss, n)[k - 1]))
    ensures forall m :: 0 <= m <= n ==> Run(ss, n)[..m] == Run(ss, m)
  {
    if n > 0 {
      RunMeaning(ss, n - 1);
      var prev := Run(ss, n - 1);
      assert Run(ss, n) == prev + [Run(ss, n)[n - 1]];
      assert Run(ss, n)[..n - 1] == prev;
      forall m | 0 <= m <= n
        ensures Run(ss, n)[..m] == Run(ss, m)
      {
        if m < n {
          assert Run(ss, n)[..m] == prev[..m];
        }
      }
    }
  }

  /** The result of `get_output_map_set`: the last map set, or every map set in order. */
  datatype Output<M> = Last(mapSet: M) | Every(mapSets: seq<M>)

  /** `get_output_map_set(idx, all_map_sets)`: runs the stages before the slice end;
      without `all_map_sets` and with no stage run, `map_set` is read unbound. */
  function OutputOf<M>(ss: seq<Stage<M>>, idx: Option<int>, allMapSets: bool): (r: Result<Output<M>>)
  {
    var n := SliceEnd(|ss|, idx);
    if allMapSets then Ok(Every(Run(ss, n)))
    else if n == 0 then Err(UnboundLocalError)
    else Ok(Last(Run(ss, n)[n - 1]))
  }

  /** With `all_map_sets`, one map set per stage run; otherwise the last stage run's map
      set, which is the last of those, and an error exactly when no stage runs. */
  lemma OutputMeaning<M>(ss: seq<Stage<M>>, idx: Option<int>, allMapSets: bool)
    ensures var r := OutputOf(ss, idx, allMapSets); var n := SliceEnd(|ss|, idx);
      (allMapSets ==> r.Ok? && r.value.Every? && |r.value.mapSets| == n) &&
      (!allMapSets ==> (r.Err? <==> n == 0) && (r.Err? ==> r.error == UnboundLocalError)) &&
      (!allMapSets && n > 0 ==> r == Ok(Last(OutputOf(ss, idx, true).value.mapSets[n - 1])))
  {
  }

  // ---------------------------------------------------------------------------
  // The template maker

  class TemplateMaker<M> {
    const config: Config
    const factory: Factory<M>
    var stages: seq<Stage<M>>

    /** `__init__` up to the call of `init_stages`, which is `InitStages` below. */
    constructor (config: Config, factory: Factory<M>)
      requires ConfigOk(config)
      ensures this.config == config && this.factory == factory && stages == []
    {
      this.config := config;
      this.factory := factory;
      this.stages := [];
    }

    /** `init_stages`: one stage per configuration key, in key order, each checked
        against the stage before it; the first failure is returned and the stages
        appended before it remain. */
    method InitStages() returns (err: Option<Error>)
      modifies this
      ensures Built(stages, err) == Build(config, factory, |config.keys|)
    {
      stages := [];
      var i := 0;
      while i < |config.keys|
        invariant 0 <= i <= |config.keys|
        invariant Build(config, factory, i) == Built(stages, None)
      {
        var stageName := config.keys[i];
        var key := Lower(stageName);
        if key !in config.entries {
          BuildStops(config, factory, i + 1, |config.keys|);
          return Some(KeyError);
        }
        if "service" !in config.entries[key] {
          BuildStops(config, factory, i + 1, |config.keys|);
          return Some(KeyError);
        }
        var service := config.entries[key]["service"];
        var made := factory(key, service, config.entries[key]);
        if made.Err? {
          BuildStops(config, factory, i + 1, |config.keys|);
          return Some(made.error);
        }
        var stage := made.value;
        if i == 0 {
          if !stage.isNoInputStage {
            BuildStops(config, factory, i + 1, |config.keys|);
            return Some(AssertionError);
          }
        } else {
          if !stage.isInputStage {
            BuildStops(config, factory, i + 1, |config.keys|);
            return Some(AssertionError);
          }
          if stage.inputBinning.Some? {
            if stages[|stages| - 1].outputBinning.None? {
              BuildStops(config, factory, i + 1, |config.keys|);
              return Some(AssertionError);
            }
            if stage.inputBinning != stages[|stages| - 1].outputBinning {
              BuildStops(config, factory, i + 1, |config.keys|);
              return Some(AssertionError);
            }
          }
        }
        stages := stages + [stage];
        i := i + 1;
      }
      return None;
    }

    /** `get_output_map_set`: the stages up to the slice end run in order, each fed the
        previous map set; every map set is collected when `allMapSets` holds. */
    method GetOutputMapSet(idx: Option<int>, allMapSets: bool) returns (r: Result<Output<M>>)
      ensures r == OutputOf(stages, idx, allMapSets)
    {
      var selected := stages[..SliceEnd(|stages|, idx)];
      var outputs: seq<M> := [];
      var mapSet: Option<M> := None;
      var i := 0;
      while i < |selected|
        invariant 0 <= i <= |selected|
        invariant allMapSets ==> outputs == Run(stages, i)
        invariant mapSet == (if i == 0 then None else Some(Run(stages, i)[i - 1]))
      {
        var stage := selected[i];
        if i == 0 {
          mapSet := Some(stage.produce(None));
        } else {
          mapSet := Some(stage.produce(mapSet));
        }
        if allMapSets {
          outputs := outputs + [mapSet.value];
        }
        i := i + 1;
      }
      if allMapSets {
        return Ok(Every(outputs));
      }
      if mapSet.None? {
        return Err(UnboundLocalError);
      }
      return Ok(Last(mapSet.value));
    }
  }
}
