/** A `for` loop that applies a step that may raise to every element in order and collects
    the results: the first raised exception ends the loop and propagates. */
module Traversal {
  import opened Wrappers

  /** The results of `f` on every element of `xs`, or the first error. */
  function MapAll<T, U, E>(f: T -> Result<U, E>, xs: seq<T>): Result<seq<U>, E>
    decreases |xs|
  {
    if |xs| == 0 then Ok([])
    else
      var init :- MapAll(f, xs[..|xs| - 1]);
      var y :- f(xs[|xs| - 1]);
      Ok(init + [y])
  }

  /** One more step of the loop. */
  lemma MapAllStep<T, U, E>(f: T -> Result<U, E>, xs: seq<T>, i: nat, acc: seq<U>)
    requires i < |xs|
    requires MapAll(f, xs[..i]) == Ok(acc)
    ensures f(xs[i]).Ok? ==> MapAll(f, xs[..i + 1]) == Ok(acc + [f(xs[i]).value])
    ensures f(xs[i]).Err? ==> MapAll(f, xs[..i + 1]) == Err(f(xs[i]).error)
  {
    assert xs[..i + 1][..i] == xs[..i];
  }

  /** An error on a prefix is the error of the whole traversal: the loop stops there. */
  lemma {:induction false} MapAllPrefixError<T, U, E>(f: T -> Result<U, E>, xs: seq<T>, n: nat)
    requires n <= |xs|
    requires MapAll(f, xs[..n]).Err?
    ensures MapAll(f, xs) == MapAll(f, xs[..n])
    decreases |xs| - n
  {
    if n < |xs| {
      assert xs[..n + 1][..n] == xs[..n];
      MapAllPrefixError(f, xs, n + 1);
    } else {
      assert xs[..n] == xs;
    }
  }

  /** The traversal succeeds exactly when every step does, and then it holds one result per
      element, in order. */
  lemma {:induction false} MapAllOk<T, U, E>(f: T -> Result<U, E>, xs: seq<T>)
    ensures MapAll(f, xs).Ok? <==> forall i :: 0 <= i < |xs| ==> f(xs[i]).Ok?
    ensures MapAll(f, xs).Ok? ==>
      |MapAll(f, xs).value| == |xs| && forall i :: 0 <= i < |xs| ==> MapAll(f, xs).value[i] == f(xs[i]).value
    decreases |xs|
  {
    if |xs| > 0 {
      var init := xs[..|xs| - 1];
      MapAllOk(f, init);
      assert forall i :: 0 <= i < |init| ==> init[i] == xs[i];
    }
  }

  /** A failed traversal reports the error of the first failing element. */
  lemma {:induction false} MapAllFirstError<T, U, E>(f: T -> Result<U, E>, xs: seq<T>)
    requires MapAll(f, xs).Err?
    ensures exists j :: (0 <= j < |xs| && f(xs[j]).Err? && MapAll(f, xs).error == f(xs[j]).error
                         && forall i :: 0 <= i < j ==> f(xs[i]).Ok?)
    decreases |xs|
  {
    var init := xs[..|xs| - 1];
    assert forall i :: 0 <= i < |init| ==> init[i] == xs[i];
    if MapAll(f, init).Err? {
      MapAllFirstError(f, init);
    } else {
      MapAllOk(f, init);
      var j := |xs| - 1;
      assert f(xs[j]).Err? && MapAll(f, xs).error == f(xs[j]).error;
    }
  }
}
