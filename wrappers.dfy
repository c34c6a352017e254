/** Option and Result values, and the order-preserving "keep the successes"
    filter that stands for `Promise.allSettled(...).filter(fulfilled).map(value)`
    and for the try/catch-and-skip loops of the server. */
module Wrappers {

  datatype Option<+T> = None | Some(value: T)

  datatype Result<+T, +E> = Ok(value: T) | Err(error: E)

  /** The values of the `Ok` entries, in their original order. */
  function KeepOk<T, E>(rs: seq<Result<T, E>>): (r: seq<T>)
    ensures |r| <= |rs|
  {
    if rs == [] then []
    else if rs[0].Ok? then [rs[0].value] + KeepOk(rs[1..])
    else KeepOk(rs[1..])
  }

  /** Filtering distributes over concatenation: the successes of a longer
      list are the successes of its first part followed by those of the rest,
      so no success is reordered, duplicated or lost. */
  lemma {:induction false} KeepOkAppend<T, E>(a: seq<Result<T, E>>, b: seq<Result<T, E>>)
    ensures KeepOk(a + b) == KeepOk(a) + KeepOk(b)
  {
    if a == [] {
      assert a + b == b;
    } else {
      assert (a + b)[1..] == a[1..] + b;
      KeepOkAppend(a[1..], b);
    }
  }

  /** A value is kept exactly when it was a success somewhere in the input. */
  lemma {:induction false} KeepOkMembership<T, E>(rs: seq<Result<T, E>>, x: T)
    ensures x in KeepOk(rs) <==> Ok(x) in rs
  {
    if rs != [] {
      KeepOkMembership(rs[1..], x);
      assert rs == [rs[0]] + rs[1..];
    }
  }

  /** When nothing fails, nothing is dropped. */
  lemma {:induction false} KeepOkAllOk<T, E>(rs: seq<Result<T, E>>)
    requires forall i :: 0 <= i < |rs| ==> rs[i].Ok?
    ensures |KeepOk(rs)| == |rs|
    ensures forall i :: 0 <= i < |rs| ==> KeepOk(rs)[i] == rs[i].value
  {
    if rs != [] {
      KeepOkAllOk(rs[1..]);
    }
  }

  /** When everything fails, the result is empty. */
  lemma {:induction false} KeepOkAllErr<T, E>(rs: seq<Result<T, E>>)
    requires forall i :: 0 <= i < |rs| ==> rs[i].Err?
    ensures KeepOk(rs) == []
  {
    if rs != [] {
      KeepOkAllErr(rs[1..]);
    }
  }
}
