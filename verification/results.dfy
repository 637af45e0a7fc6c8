/** Option and Result values: how the model reports an operation that can fail. */
module Results {

  datatype Option<+T> = None | Some(value: T)

  datatype Result<+T, +E> = Ok(value: T) | Err(error: E)

  /** The values of a list of results, or the first error among them, in
      list order (the order in which a Python `map` raises). */
  function Collect<T, E>(rs: seq<Result<T, E>>): (r: Result<seq<T>, E>)
    ensures r.Ok? <==> forall i :: 0 <= i < |rs| ==> rs[i].Ok?
    ensures r.Ok? ==> |r.value| == |rs| && forall i :: 0 <= i < |rs| ==> r.value[i] == rs[i].value
    ensures r.Err? ==> exists k :: 0 <= k < |rs| && rs[k] == Err(r.error) && forall j :: 0 <= j < k ==> rs[j].Ok?
  {
    if rs == [] then Ok([])
    else match rs[0]
      case Err(e) => Err(e)
      case Ok(v) =>
        match Collect(rs[1..])
        case Err(e) =>
          assert exists k :: 1 <= k < |rs| && rs[k] == Err(e) && forall j :: 0 <= j < k ==> rs[j].Ok? by {
            var k' :| 0 <= k' < |rs[1..]| && rs[1..][k'] == Err(e) && forall j :: 0 <= j < k' ==> rs[1..][j].Ok?;
            assert rs[k' + 1] == Err(e);
            assert forall j :: 0 <= j < k' + 1 ==> rs[j].Ok? by {
              forall j | 0 <= j < k' + 1 ensures rs[j].Ok? {
                if j > 0 { assert rs[j] == rs[1..][j - 1]; }
              }
            }
          }
          Err(e)
        case Ok(vs) => Ok([v] + vs)
  }
}
