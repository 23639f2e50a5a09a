/**
 * The selection logic of the `useLoading` and `useErrors` hooks, as pure
 * queries over an explicitly passed slice.  The hooks' variadic arguments
 * are a sequence of targets; the empty sequence is the zero-argument call.
 */
module Hooks {
  import opened Wrappers
  import opened JsValue
  import opened Objects

  /** `obj[k]` is truthy (an absent own property reads as `undefined`). */
  predicate TruthyAt(o: Obj<Val>, k: string) {
    k in o.slots && Truthy(o.slots[k])
  }

  /**
   * What `useLoading(...targets)` answers: with no targets, whether any
   * entry of the slice is truthy; otherwise whether some named target is.
   */
  ghost predicate IsLoading(loading: Obj<Val>, targets: seq<string>) {
    if |targets| == 0 then exists k :: TruthyAt(loading, k)
    else exists i :: 0 <= i < |targets| && TruthyAt(loading, targets[i])
  }

  /** The body of `useLoading`: `Object.values(..).some(..)`, or a scan of the arguments. */
  method UseLoading(loading: Obj<Val>, targets: seq<string>) returns (r: bool)
    ensures r == IsLoading(loading, targets)
    ensures |targets| == 0 && loading.order == [] ==> !r
  {
    if |targets| == 0 {
      var values := Values(loading);
      var i := 0;
      while i < |values|
        invariant 0 <= i <= |values|
        invariant forall j :: 0 <= j < i ==> !TruthyAt(loading, loading.order[j])
      {
        if Truthy(values[i]) {
          assert TruthyAt(loading, loading.order[i]);
          return true;
        }
        i := i + 1;
      }
      forall k | k in loading.slots
        ensures !TruthyAt(loading, k)
      {
        ValuesAreTheSlots(loading, k);
      }
      return false;
    }
    var i := 0;
    while i < |targets|
      invariant 0 <= i <= |targets|
      invariant forall j :: 0 <= j < i ==> !TruthyAt(loading, targets[j])
    {
      if Lookup(loading, targets[i]).Some? && Truthy(Lookup(loading, targets[i]).value) {
        return true;
      }
      i := i + 1;
    }
    return false;
  }

  /** What the callback `value => value ?? []` contributes to `flatMap`: arrays are spread. */
  function Spread(v: Val): (r: seq<Val>)
    ensures Nullish(v) ==> r == []
    ensures !Nullish(v) && !v.Arr? ==> r == [v]
  {
    if Nullish(v) then [] else if v.Arr? then v.items else [v]
  }

  /** `vs.flatMap(value => value ?? [])`. */
  function FlatSpread(vs: seq<Val>): seq<Val>
    decreases |vs|
  {
    if |vs| == 0 then [] else FlatSpread(vs[..|vs| - 1]) + Spread(vs[|vs| - 1])
  }

  /** The values `useErrors(...targets)` maps over: the whole slice, or each target's entry. */
  function ErrorSources(errors: Obj<Val>, targets: seq<string>): (r: seq<Val>)
    ensures |targets| == 0 ==> r == Values(errors)
    ensures |targets| > 0 ==> |r| == |targets|
    ensures |targets| > 0 ==> forall i :: 0 <= i < |targets| ==>
              r[i] == (match Lookup(errors, targets[i]) case Some(v) => v case None => Undefined)
  {
    if |targets| == 0 then Values(errors)
    else seq(|targets|, i requires 0 <= i < |targets| =>
               match Lookup(errors, targets[i]) case Some(v) => v case None => Undefined)
  }

  /** The body of `useErrors`: a `flatMap` over the chosen values, written as a loop. */
  method UseErrors(errors: Obj<Val>, targets: seq<string>) returns (r: seq<Val>)
    ensures r == FlatSpread(ErrorSources(errors, targets))
  {
    var sources := ErrorSources(errors, targets);
    r := [];
    var i := 0;
    while i < |sources|
      invariant 0 <= i <= |sources|
      invariant r == FlatSpread(sources[..i])
    {
      assert sources[..i + 1][..i] == sources[..i];
      r := r + Spread(sources[i]);
      i := i + 1;
    }
    assert sources[..i] == sources;
  }

  /** The non-nullish values of `vs`, in order. */
  function NonNullish(vs: seq<Val>): seq<Val>
    decreases |vs|
  {
    if |vs| == 0 then []
    else if Nullish(vs[|vs| - 1]) then NonNullish(vs[..|vs| - 1])
    else NonNullish(vs[..|vs| - 1]) + [vs[|vs| - 1]]
  }

  /** Flat-mapping distributes over concatenation. */
  lemma {:induction false} FlatSpreadAppend(xs: seq<Val>, ys: seq<Val>)
    ensures FlatSpread(xs + ys) == FlatSpread(xs) + FlatSpread(ys)
    decreases |ys|
  {
    if |ys| == 0 {
      assert xs + ys == xs;
    } else {
      var n := |ys| - 1;
      assert (xs + ys)[..|xs + ys| - 1] == xs + ys[..n];
      FlatSpreadAppend(xs, ys[..n]);
    }
  }

  /**
   * When no stored value is an array, `useErrors` returns exactly the
   * non-nullish values, in order: falsy ones such as the `false` a CLEAR
   * stores are kept, `null` and `undefined` ones are dropped.
   */
  lemma {:induction false} WithoutArraysErrorsAreNonNullish(vs: seq<Val>)
    requires forall i :: 0 <= i < |vs| ==> !vs[i].Arr?
    ensures FlatSpread(vs) == NonNullish(vs)
    ensures forall x :: x in FlatSpread(vs) <==> x in vs && !Nullish(x)
    decreases |vs|
  {
    if |vs| > 0 {
      var n := |vs| - 1;
      WithoutArraysErrorsAreNonNullish(vs[..n]);
      assert vs == vs[..n] + [vs[n]];
      forall x
        ensures x in FlatSpread(vs) <==> x in vs && !Nullish(x)
      {
        assert x in vs <==> x in vs[..n] || x == vs[n];
      }
    }
  }

  /** A target with no entry contributes nothing: `useErrors('X')` is `[]` when X has no entry. */
  lemma AbsentTargetContributesNothing(errors: Obj<Val>, t: string)
    requires t !in errors.slots
    ensures FlatSpread(ErrorSources(errors, [t])) == []
  {
    assert ErrorSources(errors, [t]) == [Undefined];
    assert [Undefined][..0] == [];
  }

  /** With several targets, the answer is the per-target answers concatenated in argument order. */
  lemma {:induction false} ErrorsPerTarget(errors: Obj<Val>, targets: seq<string>, t: string)
    requires |targets| > 0
    ensures FlatSpread(ErrorSources(errors, targets + [t])) ==
              FlatSpread(ErrorSources(errors, targets)) + FlatSpread(ErrorSources(errors, [t]))
  {
    var all := ErrorSources(errors, targets + [t]);
    assert all == ErrorSources(errors, targets) + ErrorSources(errors, [t]);
    FlatSpreadAppend(ErrorSources(errors, targets), ErrorSources(errors, [t]));
  }

  /** A non-nullish, non-array value among the sources appears in the result. */
  lemma {:induction false} ScalarSourceIsReported(vs: seq<Val>, i: nat)
    requires i < |vs| && !Nullish(vs[i]) && !vs[i].Arr?
    ensures vs[i] in FlatSpread(vs)
    decreases |vs|
  {
    var n := |vs| - 1;
    if i < n {
      ScalarSourceIsReported(vs[..n], i);
    }
  }

  /**
   * An entry that CLEAR reset to `false` still shows up in the
   * zero-argument `useErrors()`: `false ?? []` is `false`.
   */
  lemma ClearedEntryIsReported(errors: Obj<Val>, t: string)
    requires Lookup(errors, t) == Some(Bool(false))
    ensures Bool(false) in FlatSpread(ErrorSources(errors, []))
  {
    var vs := Values(errors);
    ValuesAreTheSlots(errors, t);
    var i :| 0 <= i < |vs| && vs[i] == Bool(false);
    ScalarSourceIsReported(vs, i);
  }
}
