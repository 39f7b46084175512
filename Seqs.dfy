/** Sequence operations shared by the chunking, the accumulation of record
    literals and the per-chunk send loop. */
module Seqs {
  import opened Wrappers

  /** The concatenation, in order, of a sequence of sequences. */
  function Flatten<T>(ss: seq<seq<T>>): seq<T>
  {
    if ss == [] then [] else ss[0] + Flatten(ss[1..])
  }

  /** `s` back to front. */
  function Reverse<T>(s: seq<T>): (r: seq<T>)
    ensures |r| == |s|
  {
    if s == [] then [] else [s[|s| - 1]] + Reverse(s[..|s| - 1])
  }

  /** Prepending `x` to the concatenation of reversed `ss` is the
      concatenation of reversed `ss + [x]`. */
  lemma FlattenReverseSnoc<T>(ss: seq<seq<T>>, x: seq<T>)
    ensures Flatten(Reverse(ss + [x])) == x + Flatten(Reverse(ss))
  {
    assert (ss + [x])[..|ss|] == ss;
  }

  /** What running `f` over `xs` in order produces when the first failure
      ends the run, as an exception does: the results of every element
      before it, and that failure, if there is one. */
  datatype Collected<B, E> = Collected(done: seq<B>, failure: Option<E>)

  function Collect<A, B, E>(xs: seq<A>, f: A -> Result<B, E>): (r: Collected<B, E>)
    ensures |r.done| <= |xs|
  {
    if xs == [] then Collected([], None)
    else
      var prior := Collect(xs[..|xs| - 1], f);
      if prior.failure.Some? then prior
      else match f(xs[|xs| - 1])
        case Err(e) => Collected(prior.done, Some(e))
        case Ok(b) => Collected(prior.done + [b], None)
  }

  /** Collect's result, characterised element by element: `done` holds the
      results of the leading successes, and a failure is the one of the
      element right after them. */
  lemma {:induction false} CollectSpec<A, B, E>(xs: seq<A>, f: A -> Result<B, E>)
    ensures forall i :: 0 <= i < |Collect(xs, f).done| ==> f(xs[i]) == Ok(Collect(xs, f).done[i])
    ensures Collect(xs, f).failure.None? ==> |Collect(xs, f).done| == |xs|
    ensures Collect(xs, f).failure.Some? ==>
      |Collect(xs, f).done| < |xs| &&
      f(xs[|Collect(xs, f).done|]) == Err(Collect(xs, f).failure.value)
  {
    if xs != [] {
      var init := xs[..|xs| - 1];
      CollectSpec(init, f);
      assert forall i :: 0 <= i < |init| ==> init[i] == xs[i];
    }
  }

  /** The run succeeds exactly when `f` succeeds on every element, and then
      `done` is `f` applied to each element, in order. */
  lemma CollectAllOk<A, B, E>(xs: seq<A>, f: A -> Result<B, E>)
    ensures Collect(xs, f).failure.None? <==> forall i :: 0 <= i < |xs| ==> f(xs[i]).Ok?
    ensures Collect(xs, f).failure.None? ==>
      |Collect(xs, f).done| == |xs| &&
      forall i :: 0 <= i < |xs| ==> Collect(xs, f).done[i] == f(xs[i]).value
  {
    CollectSpec(xs, f);
  }

  /** When element `j` is the first failure, the run stops there with that
      failure, after the results of the `j` elements before it. */
  lemma CollectFirstFailure<A, B, E>(xs: seq<A>, f: A -> Result<B, E>, j: nat)
    requires j < |xs| && f(xs[j]).Err?
    requires forall i :: 0 <= i < j ==> f(xs[i]).Ok?
    ensures Collect(xs, f).failure == Some(f(xs[j]).error)
    ensures |Collect(xs, f).done| == j
  {
    CollectSpec(xs, f);
  }

  /** A run that already failed on a prefix is the run on the whole
      sequence: nothing after the failure is looked at. */
  lemma {:induction false} CollectPrefixFailed<A, B, E>(xs: seq<A>, i: nat, f: A -> Result<B, E>)
    requires i <= |xs|
    requires Collect(xs[..i], f).failure.Some?
    ensures Collect(xs, f) == Collect(xs[..i], f)
    decreases |xs| - i
  {
    if i == |xs| {
      assert xs[..i] == xs;
    } else {
      var init := xs[..|xs| - 1];
      assert init[..i] == xs[..i];
      CollectPrefixFailed(init, i, f);
    }
  }

  /** One more step of a run that has not failed yet. */
  lemma CollectSnoc<A, B, E>(xs: seq<A>, i: nat, f: A -> Result<B, E>)
    requires i < |xs|
    ensures Collect(xs[..i + 1], f) ==
      var prior := Collect(xs[..i], f);
      if prior.failure.Some? then prior
      else match f(xs[i])
        case Err(e) => Collected(prior.done, Some(e))
        case Ok(b) => Collected(prior.done + [b], None)
  {
    assert xs[..i + 1][..i] == xs[..i];
  }
}
