/** A loop that converts the items of a list one by one into a result list and
    stops at the first item whose conversion raises. */
module Traverse {
  import opened Wrappers

  /** The results of `f` on `xs`, appended to `acc`, or the first failure. */
  function MapAll<A, B>(f: A -> Result<B>, xs: seq<A>, acc: seq<B>): Result<seq<B>>
    decreases |xs|
  {
    if |xs| == 0 then Ok(acc)
    else
      var y :- f(xs[0]);
      MapAll(f, xs[1..], acc + [y])
  }

  /** One pass of the loop: the `i`-th item either fails, and so does the
      whole, or is appended. */
  lemma MapAllStep<A, B>(f: A -> Result<B>, xs: seq<A>, i: nat, acc: seq<B>)
    requires i < |xs|
    ensures f(xs[i]).Err? ==> MapAll(f, xs[i..], acc) == Err(f(xs[i]).error)
    ensures f(xs[i]).Ok? ==> MapAll(f, xs[i..], acc) == MapAll(f, xs[i + 1..], acc + [f(xs[i]).value])
  {
    assert xs[i..][0] == xs[i] && xs[i..][1..] == xs[i + 1..];
  }

  /** A successful run keeps `acc` and holds one result per item, in order. */
  lemma {:induction false} MapAllShape<A, B>(f: A -> Result<B>, xs: seq<A>, acc: seq<B>)
    requires MapAll(f, xs, acc).Ok?
    ensures var ys := MapAll(f, xs, acc).value;
            |ys| == |acc| + |xs| && ys[..|acc|] == acc
            && forall i :: 0 <= i < |xs| ==> f(xs[i]) == Ok(ys[|acc| + i])
    decreases |xs|
  {
    if |xs| > 0 {
      var y := f(xs[0]).value;
      var acc' := acc + [y];
      MapAllShape(f, xs[1..], acc');
      var ys := MapAll(f, xs, acc).value;
      assert ys[..|acc|] == acc'[..|acc|] == acc;
      forall i | 0 <= i < |xs| ensures f(xs[i]) == Ok(ys[|acc| + i]) {
        if i > 0 {
          assert xs[i] == xs[1..][i - 1];
        }
      }
    }
  }

  /** The run succeeds exactly when every item converts. */
  lemma {:induction false} MapAllOk<A, B>(f: A -> Result<B>, xs: seq<A>, acc: seq<B>)
    ensures MapAll(f, xs, acc).Ok? <==> forall i :: 0 <= i < |xs| ==> f(xs[i]).Ok?
    decreases |xs|
  {
    if |xs| > 0 && f(xs[0]).Ok? {
      MapAllOk(f, xs[1..], acc + [f(xs[0]).value]);
      assert forall i :: 1 <= i < |xs| ==> xs[i] == xs[1..][i - 1];
    }
  }

  /** A failed run fails with the failure of the first item that does not
      convert. */
  lemma {:induction false} MapAllFirstErr<A, B>(f: A -> Result<B>, xs: seq<A>, acc: seq<B>, k: nat)
    requires k < |xs| && f(xs[k]).Err? && forall i :: 0 <= i < k ==> f(xs[i]).Ok?
    ensures MapAll(f, xs, acc) == Err(f(xs[k]).error)
    decreases k
  {
    if k > 0 {
      MapAllFirstErr(f, xs[1..], acc + [f(xs[0]).value], k - 1);
    }
  }
}
