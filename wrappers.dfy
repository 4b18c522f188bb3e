/** Option and Result, and mapping a failing function over a sequence the way a
    Python list comprehension or `for` loop does: item by item, stopping at the
    first exception. */
module Wrappers {

  datatype Option<+T> = None | Some(value: T)

  datatype Result<+T, +E> = Ok(value: T) | Err(error: E) {

    predicate IsFailure() {
      Err?
    }

    function PropagateFailure<U>(): Result<U, E>
      requires Err?
    {
      Err(error)
    }

    function Extract(): T
      requires Ok?
    {
      value
    }
  }

  /** Applies `f` to every item from the first to the last; the first failure
      ends the run and is what the whole run reports. Defined from the back so
      that a loop over a growing prefix can follow it. */
  function MapAll<A, B, E>(xs: seq<A>, f: A -> Result<B, E>): (r: Result<seq<B>, E>)
    ensures r.Ok? <==> forall i :: 0 <= i < |xs| ==> f(xs[i]).Ok?
    ensures r.Ok? ==> |r.value| == |xs|
    ensures r.Ok? ==> forall i :: 0 <= i < |xs| ==> r.value[i] == f(xs[i]).value
    ensures r.Err? ==>
      exists k :: 0 <= k < |xs| && f(xs[k]).Err? && r.error == f(xs[k]).error &&
        forall j :: 0 <= j < k ==> f(xs[j]).Ok?
    decreases |xs|
  {
    if xs == [] then Ok([])
    else
      var init := MapAll(xs[..|xs| - 1], f);
      if init.Err? then
        Err(init.error)
      else
        var last := f(xs[|xs| - 1]);
        if last.Err? then Err(last.error) else Ok(init.value + [last.value])
  }

  /** A run whose items before `k` all succeed and whose item `k` fails
      reports the failure of item `k`. */
  lemma MapAllFirstFailure<A, B, E>(xs: seq<A>, f: A -> Result<B, E>, k: nat)
    requires k < |xs| && f(xs[k]).Err?
    requires forall j :: 0 <= j < k ==> f(xs[j]).Ok?
    ensures MapAll(xs, f) == Err(f(xs[k]).error)
  {
    var r := MapAll(xs, f);
    assert r.Err?;
    var k' :| 0 <= k' < |xs| && f(xs[k']).Err? && r.error == f(xs[k']).error &&
      forall j :: 0 <= j < k' ==> f(xs[j]).Ok?;
    assert k' == k;
  }

  /** Running over one more item extends a successful run by that item's value. */
  lemma MapAllSnoc<A, B, E>(xs: seq<A>, x: A, f: A -> Result<B, E>)
    requires MapAll(xs, f).Ok? && f(x).Ok?
    ensures MapAll(xs + [x], f) == Ok(MapAll(xs, f).value + [f(x).value])
  {
    assert (xs + [x])[..|xs + [x]| - 1] == xs;
  }

  /** A run of `parse` over items each of which parses to the matching item
      of `xs` gives back `xs`. */
  lemma MapAllInverse<A, B, E>(dumped: seq<A>, xs: seq<B>, parse: A -> Result<B, E>)
    requires |dumped| == |xs|
    requires forall i :: 0 <= i < |xs| ==> parse(dumped[i]) == Ok(xs[i])
    ensures MapAll(dumped, parse) == Ok(xs)
  {
    var r := MapAll(dumped, parse);
    assert r.Ok?;
    assert r.value == xs;
  }

  /** A successful run over the first `i` items, extended by a success on
      item `i`, is the successful run over the first `i + 1`. */
  lemma MapAllExtend<A, B, E>(xs: seq<A>, i: nat, f: A -> Result<B, E>, done: seq<B>)
    requires i < |xs| && MapAll(xs[..i], f) == Ok(done) && f(xs[i]).Ok?
    ensures MapAll(xs[..i + 1], f) == Ok(done + [f(xs[i]).value])
  {
    assert xs[..i + 1] == xs[..i] + [xs[i]];
    MapAllSnoc(xs[..i], xs[i], f);
  }

  /** A successful run over the first `i` items followed by a failure on
      item `i` makes the run over all of `xs` report that failure. */
  lemma MapAllStop<A, B, E>(xs: seq<A>, i: nat, f: A -> Result<B, E>, done: seq<B>)
    requires i < |xs| && MapAll(xs[..i], f) == Ok(done) && f(xs[i]).Err?
    ensures MapAll(xs, f) == Err(f(xs[i]).error)
  {
    forall j | 0 <= j < i
      ensures f(xs[j]).Ok?
    {
      assert xs[..i][j] == xs[j];
    }
    MapAllFirstFailure(xs, f, i);
  }

  /** One more step of a run that has succeeded on the first `i` items: a
      success extends it, and a failure is what the run over all of `xs`
      reports. */
  lemma MapAllStep<A, B, E>(xs: seq<A>, i: nat, f: A -> Result<B, E>, done: seq<B>)
    requires i < |xs| && MapAll(xs[..i], f) == Ok(done)
    ensures f(xs[i]).Ok? ==> MapAll(xs[..i + 1], f) == Ok(done + [f(xs[i]).value])
    ensures f(xs[i]).Err? ==> MapAll(xs, f) == Err(f(xs[i]).error)
  {
    if f(xs[i]).Ok? {
      MapAllExtend(xs, i, f, done);
    } else {
      MapAllStop(xs, i, f, done);
    }
  }

  /** Two functions that agree on every item give the same run. */
  lemma {:induction false} MapAllCongruent<A, B, E>(xs: seq<A>, f: A -> Result<B, E>, g: A -> Result<B, E>)
    requires forall i :: 0 <= i < |xs| ==> f(xs[i]) == g(xs[i])
    ensures MapAll(xs, f) == MapAll(xs, g)
    decreases |xs|
  {
    if xs != [] {
      var init := xs[..|xs| - 1];
      forall i | 0 <= i < |init|
        ensures f(init[i]) == g(init[i])
      {
        assert init[i] == xs[i];
      }
      MapAllCongruent(init, f, g);
    }
  }

  /** Two functions that succeed on the same items, and fail with the same
      error, give runs that succeed together and fail with the same error. */
  lemma {:induction false} MapAllSameOutcome<A, B, C, E>(xs: seq<A>, f: A -> Result<B, E>, g: A -> Result<C, E>)
    requires forall i :: 0 <= i < |xs| ==> f(xs[i]).Ok? == g(xs[i]).Ok?
    requires forall i :: 0 <= i < |xs| ==> f(xs[i]).Err? ==> f(xs[i]).error == g(xs[i]).error
    ensures MapAll(xs, f).Ok? == MapAll(xs, g).Ok?
    ensures MapAll(xs, f).Err? ==> MapAll(xs, f).error == MapAll(xs, g).error
    decreases |xs|
  {
    if xs != [] {
      var init := xs[..|xs| - 1];
      forall i | 0 <= i < |init|
        ensures f(init[i]).Ok? == g(init[i]).Ok?
        ensures f(init[i]).Err? ==> f(init[i]).error == g(init[i]).error
      {
        assert init[i] == xs[i];
      }
      MapAllSameOutcome(init, f, g);
    }
  }
}
