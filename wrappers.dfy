/** Option and Result, used for Python's `None` and for raised exceptions. */
module Wrappers {

  datatype Option<+T> = None | Some(value: T) {
    function GetOr(default: T): T {
      match this
      case Some(v) => v
      case None => default
    }
  }

  datatype Result<+R, +E> = Ok(value: R) | Err(error: E)

  /** A loop that appends `f(x)` for each `x` in turn and stops at the first
      exception: the results of a prefix, or its first error. */
  function Collect<A, B, E>(xs: seq<A>, f: A -> Result<B, E>): Result<seq<B>, E>
    decreases |xs|
  {
    if xs == [] then Ok([])
    else
      match Collect(xs[..|xs| - 1], f)
      case Err(e) => Err(e)
      case Ok(prev) =>
        match f(xs[|xs| - 1])
        case Err(e) => Err(e)
        case Ok(d) => Ok(prev + [d])
  }

  /** One more element appends its result, unless the prefix or the
      element has raised. */
  lemma CollectStep<A, B, E>(xs: seq<A>, i: nat, f: A -> Result<B, E>)
    requires i < |xs|
    ensures var prev := Collect(xs[..i], f);
            Collect(xs[..i + 1], f) ==
              if prev.Err? then prev else if f(xs[i]).Err? then Err(f(xs[i]).error) else Ok(prev.value + [f(xs[i]).value])
  {
    assert xs[..i + 1][..i] == xs[..i] && xs[..i + 1][i] == xs[i];
  }

  /** The loop over `xs` after `i` elements, with `acc` collected so far:
      element `i` either raises for the whole list or extends `acc`. */
  lemma CollectExtend<A, B, E>(xs: seq<A>, i: nat, f: A -> Result<B, E>, acc: seq<B>)
    requires i < |xs| && Collect(xs[..i], f) == Ok(acc)
    ensures f(xs[i]).Err? ==> Collect(xs, f) == Err(f(xs[i]).error)
    ensures f(xs[i]).Ok? ==> Collect(xs[..i + 1], f) == Ok(acc + [f(xs[i]).value])
  {
    CollectStep(xs, i, f);
    if f(xs[i]).Err? {
      CollectErrPersists(xs, i + 1, f);
    }
  }

  /** Once a prefix has raised, the whole list raises the same way. */
  lemma {:induction false} CollectErrPersists<A, B, E>(xs: seq<A>, k: nat, f: A -> Result<B, E>)
    requires k <= |xs|
    requires Collect(xs[..k], f).Err?
    ensures Collect(xs, f) == Collect(xs[..k], f)
    decreases |xs| - k
  {
    if k < |xs| {
      assert xs[..k + 1][..k] == xs[..k];
      CollectErrPersists(xs, k + 1, f);
    } else {
      assert xs[..k] == xs;
    }
  }

  /** Success is one result per element, in order; failure happens exactly
      when some element fails. */
  lemma {:induction false} CollectAll<A, B, E>(xs: seq<A>, f: A -> Result<B, E>)
    ensures var r := Collect(xs, f);
            r.Ok? ==> |r.value| == |xs| && forall i :: 0 <= i < |xs| ==> f(xs[i]) == Ok(r.value[i])
    ensures Collect(xs, f).Err? <==> exists i :: 0 <= i < |xs| && f(xs[i]).Err?
    decreases |xs|
  {
    if xs != [] {
      var init := xs[..|xs| - 1];
      CollectAll(init, f);
      var r := Collect(xs, f);
      var prev := Collect(init, f);
      if prev.Err? {
        var i :| 0 <= i < |init| && f(init[i]).Err?;
        assert xs[i] == init[i];
      } else {
        if r.Ok? {
          forall i | 0 <= i < |xs|
            ensures f(xs[i]) == Ok(r.value[i])
          {
            if i < |init| {
              assert xs[i] == init[i];
            }
          }
        } else {
          assert f(xs[|xs| - 1]).Err?;
        }
        if exists i :: 0 <= i < |xs| && f(xs[i]).Err? {
          var i :| 0 <= i < |xs| && f(xs[i]).Err?;
          if i < |init| {
            assert xs[i] == init[i];
          }
        }
      }
    }
  }
}
