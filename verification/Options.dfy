/** Optional values, fallible results and fresh numbers, shared by every module of the model. */
module Options {

  datatype Option<+T> = None | Some(value: T)

  datatype Result<+T, +E> = Ok(value: T) | Err(error: E)

  /** There is always an unused number. */
  lemma {:induction false} FreshExists(used: set<nat>) returns (n: nat)
    ensures forall u :: u in used ==> u < n
  {
    if used == {} {
      n := 0;
    } else {
      var u :| u in used;
      var m := FreshExists(used - {u});
      n := if m > u then m else u + 1;
      assert forall v :: v in used ==> v == u || v in used - {u};
    }
  }
}
