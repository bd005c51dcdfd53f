/** Failure values of the modelled code: each Python exception the core can raise
    becomes one error kind, carried by a Result instead of being thrown. */
module Results {

  datatype Error =
    | ValueError          // explicit `raise ValueError`, `list.index` miss, `np.min` over an empty selection
    | AssertionError      // a failed `assert`
    | NotImplementedError // `raise NotImplementedError`
    | KeyError            // a dictionary lookup that misses
    | UnboundLocalError   // a local read before any assignment
    | IndexError          // indexing an empty sequence

  datatype Result<T> = Ok(value: T) | Err(error: Error)

  datatype Option<T> = None | Some(value: T)

  /** The values of a list of results, or the first error among them. */
  function Collect<T>(rs: seq<Result<T>>): (r: Result<seq<T>>)
    ensures r.Ok? <==> forall k :: 0 <= k < |rs| ==> rs[k].Ok?
    ensures r.Ok? ==> |r.value| == |rs| && forall k :: 0 <= k < |rs| ==> rs[k] == Ok(r.value[k])
  {
    if |rs| == 0 then Ok([])
    else
      match Collect(rs[..|rs| - 1])
      case Err(e) => Err(e)
      case Ok(vs) =>
        match rs[|rs| - 1]
        case Err(e) => Err(e)
        case Ok(v) => Ok(vs + [v])
  }

  /** A failed collection reports the error of its first failing result. */
  lemma {:induction false} CollectErrIsFirst<T>(rs: seq<Result<T>>)
    requires Collect(rs).Err?
    ensures exists k :: 0 <= k < |rs| && rs[k] == Err(Collect(rs).error) && forall j :: 0 <= j < k ==> rs[j].Ok?
  {
    var init := rs[..|rs| - 1];
    if Collect(init).Err? {
      CollectErrIsFirst(init);
      var k :| 0 <= k < |init| && init[k] == Err(Collect(init).error) && forall j :: 0 <= j < k ==> init[j].Ok?;
      assert rs[k] == init[k];
      assert forall j :: 0 <= j < k ==> rs[j] == init[j];
    } else {
      assert forall j :: 0 <= j < |init| ==> rs[j] == init[j];
    }
  }

  /** When every result before position `i` is Ok and the one at `i` is not, the
      collection fails with that error. */
  lemma CollectFirstErr<T>(rs: seq<Result<T>>, i: nat)
    requires i < |rs| && rs[i].Err?
    requires forall j :: 0 <= j < i ==> rs[j].Ok?
    ensures Collect(rs) == Err(rs[i].error)
  {
    var r := Collect(rs);
    CollectErrIsFirst(rs);
    var k :| 0 <= k < |rs| && rs[k] == Err(r.error) && forall j :: 0 <= j < k ==> rs[j].Ok?;
    assert k == i;
  }
}
