/**
  Results taken in order until the first failure: the shape of a Go loop that
  returns the first error it meets and otherwise appends every value.
*/
module Collecting {
  import opened Wrappers

  /** The values of the first `n` results, or the error of the first failure among them. */
  function Collect<T, E>(rs: seq<Result<T, E>>, n: nat): Result<seq<T>, E>
    requires n <= |rs|
    decreases n
  {
    if n == 0 then Success([])
    else
      match Collect(rs, n - 1)
      case Failure(e) => Failure(e)
      case Success(vs) =>
        match rs[n - 1]
        case Failure(e) => Failure(e)
        case Success(v) => Success(vs + [v])
  }

  /** A successful collection holds one value per result, in order. */
  lemma {:induction false} CollectInOrder<T, E>(rs: seq<Result<T, E>>, n: nat)
    requires n <= |rs| && Collect(rs, n).Success?
    ensures |Collect(rs, n).value| == n
    ensures forall i :: 0 <= i < n ==> rs[i] == Success(Collect(rs, n).value[i])
  {
    if n > 0 {
      CollectInOrder(rs, n - 1);
    }
  }

  /** The collection succeeds when each of the first `n` results does. */
  lemma {:induction false} CollectSucceeds<T, E>(rs: seq<Result<T, E>>, n: nat)
    requires n <= |rs|
    requires forall i :: 0 <= i < n ==> rs[i].Success?
    ensures Collect(rs, n).Success?
  {
    if n > 0 {
      CollectSucceeds(rs, n - 1);
    }
  }

  /** After a successful collection of `n` results, the next one is appended or its error ends it. */
  lemma {:induction false} CollectNext<T, E>(rs: seq<Result<T, E>>, n: nat)
    requires n < |rs| && Collect(rs, n).Success?
    ensures Collect(rs, n + 1) ==
      if rs[n].Failure? then Failure(rs[n].error) else Success(Collect(rs, n).value + [rs[n].value])
  {
  }

  /** Once a result has failed, later results change nothing. */
  lemma {:induction false} CollectStopped<T, E>(rs: seq<Result<T, E>>, k: nat, m: nat)
    requires k <= m <= |rs|
    requires Collect(rs, k).Failure?
    ensures Collect(rs, m) == Collect(rs, k)
    decreases m
  {
    if m > k {
      CollectStopped(rs, k, m - 1);
    }
  }

  /** The whole collection fails with the error of the first failing result. */
  lemma {:induction false} CollectFirstFailure<T, E>(rs: seq<Result<T, E>>, k: nat)
    requires k < |rs|
    requires forall i :: 0 <= i < k ==> rs[i].Success?
    requires rs[k].Failure?
    ensures Collect(rs, |rs|) == Failure(rs[k].error)
  {
    CollectSucceeds(rs, k);
    CollectNext(rs, k);
    CollectStopped(rs, k + 1, |rs|);
  }

  /** The whole collection succeeds exactly when every result does. */
  lemma {:induction false} CollectSucceedsIff<T, E>(rs: seq<Result<T, E>>)
    ensures Collect(rs, |rs|).Success? <==> forall i :: 0 <= i < |rs| ==> rs[i].Success?
  {
    if Collect(rs, |rs|).Success? {
      CollectInOrder(rs, |rs|);
    } else if forall i :: 0 <= i < |rs| ==> rs[i].Success? {
      CollectSucceeds(rs, |rs|);
    }
  }
}
