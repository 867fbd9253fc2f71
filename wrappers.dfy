/** Failure-carrying values shared by every module of the model.
    The scripts signal failure with Python exceptions; here each becomes an
    `Err` carrying the kind of exception that would have been raised. */
module Wrappers {

  datatype Option<T> = None | Some(value: T)

  /** The Python exceptions (and the `sys.exit(1)` abort) the modelled code can raise. */
  datatype Error =
    | KeyError        // a dictionary lookup of a missing key
    | ValueError      // tuple unpacking of the wrong number of parts
    | TypeError       // indexing a tuple with a string key
    | AssertionError  // a failed `assert`
    | ExitFailure     // `sys.exit(1)` after a message on standard error

  datatype Result<T> = Ok(value: T) | Err(error: Error)

  /** `d.get(k, default)` */
  function GetOr<K, V>(m: map<K, V>, k: K, default: V): (r: V)
    ensures k in m ==> r == m[k]
    ensures k !in m ==> r == default
  {
    if k in m then m[k] else default
  }

  /** Some element of a non-empty set, standing for the next key of a dict or
      set being iterated; the order Python yields them in is not modelled. */
  method PickFrom(s: set<int>) returns (x: int)
    requires s != {}
    ensures x in s
  {
    // The verifier does not derive from `s != {}` that a plain `x :| x in s`
    // over `set<int>` has a witness; over a set of pairs it does.
    var tagged := set y | y in s :: (y, 0);
    assert tagged != {} by {
      if tagged == {} {
        assert forall y :: y in s ==> (y, 0) in tagged;
      }
    }
    var p :| p in tagged;
    x := p.0;
  }
}
