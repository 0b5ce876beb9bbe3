/** `F.compose` and `F.chain`: right-to-left and left-to-right pipelines in
    which a stage that returns a Tuple fans its elements out as the next
    stage's positional arguments. */
module Composition {
  import opened Values

  /** The argument list a stage's result becomes for the next stage: a Tuple's
      elements, any other value as the single argument. */
  function NextArgs(result: Value): seq<Value>
  {
    if result.Tuple? then result.elements else [result]
  }

  /** The composition of no stages, `x => x`: it returns its first argument
      and ignores the others. */
  function Identity(): Fn
  {
    xs => ArgAt(xs, 0)
  }

  /** `compose(...fs)`: the function that runs `Composed(fs, _)`. */
  function Compose(fs: seq<Fn>): Fn
  {
    xs => Composed(fs, xs)
  }

  /** `compose(...fs)(...xs)`: with no stages, `x => x`; otherwise the last
      stage runs on all arguments, its result is turned into an argument list
      by `NextArgs`, and the composition of the remaining stages runs on
      that list. */
  function Composed(fs: seq<Fn>, xs: seq<Value>): Value
    decreases |fs|
  {
    if |fs| == 0 then Identity()(xs)
    else
      var last := fs[|fs| - 1];
      var rest := fs[..|fs| - 1];
      Composed(rest, NextArgs(last(xs)))
  }

  /** Reference semantics, peeling the leftmost stage instead of the last: the
      argument list that reaches the final `x => x` of `compose(...fs)` when
      it is called with `xs`. */
  function Pipeline(fs: seq<Fn>, xs: seq<Value>): seq<Value>
    decreases |fs|
  {
    if fs == [] then xs else NextArgs(fs[0](Pipeline(fs[1..], xs)))
  }

  /** Running one more stage on the right first turns its result into the
      argument list of the others. */
  lemma {:induction false} PipelineSnoc(fs: seq<Fn>, g: Fn, xs: seq<Value>)
    ensures Pipeline(fs + [g], xs) == Pipeline(fs, NextArgs(g(xs)))
    decreases |fs|
  {
    if fs == [] {
      assert [g][1..] == [];
    } else {
      assert (fs + [g])[1..] == fs[1..] + [g];
      PipelineSnoc(fs[1..], g, xs);
    }
  }

  /** Splitting a stage list: the right part runs first and hands its final
      argument list to the left part. */
  lemma {:induction false} PipelineAppend(fs: seq<Fn>, gs: seq<Fn>, xs: seq<Value>)
    ensures Pipeline(fs + gs, xs) == Pipeline(fs, Pipeline(gs, xs))
    decreases |fs|
  {
    if fs == [] {
      assert [] + gs == gs;
    } else {
      assert (fs + gs)[1..] == fs[1..] + gs;
      PipelineAppend(fs[1..], gs, xs);
    }
  }

  /** `compose(...fs)(...xs)` returns the first value of the argument list
      the stages produce, running from the last stage to the first. */
  lemma {:induction false} ComposeIsPipeline(fs: seq<Fn>, xs: seq<Value>)
    ensures Compose(fs)(xs) == ArgAt(Pipeline(fs, xs), 0)
    decreases |fs|
  {
    if |fs| > 0 {
      var last, rest := fs[|fs| - 1], fs[..|fs| - 1];
      assert fs == rest + [last];
      ComposeIsPipeline(rest, NextArgs(last(xs)));
      PipelineSnoc(rest, last, xs);
    }
  }

  /** `compose()` is `x => x`: it returns its single argument unchanged. */
  lemma ComposeEmpty(x: Value)
    ensures Compose([])([x]) == x
    ensures Compose([])([]) == Undefined
  {
  }

  /** `compose(f, g)(x) == f(g(x))` when neither stage returns a Tuple. */
  lemma ComposeTwo(f: Fn, g: Fn, xs: seq<Value>)
    requires !g(xs).Tuple? && !f([g(xs)]).Tuple?
    ensures Compose([f, g])(xs) == f([g(xs)])
  {
    assert [f, g][..1] == [f] && [f][..0] == [];
    assert Composed([f], [g(xs)]) == Composed([], [f([g(xs)])]);
  }

  /** A Tuple returned by `g` is spread as the arguments of `f`:
      `compose(f, () => new Tuple(...e))() == f(...e)`. */
  lemma ComposeSpreadsTuple(f: Fn, g: Fn, xs: seq<Value>, e: seq<Value>)
    requires g(xs) == Tuple(e) && !f(e).Tuple?
    ensures Compose([f, g])(xs) == f(e)
  {
    assert [f, g][..1] == [f] && [f][..0] == [];
    assert Composed([f], e) == Composed([], [f(e)]);
  }

  /** When the leftmost stage returns a Tuple, its elements are spread into
      the empty composition `x => x`, so only the first element (or
      `undefined`) comes out. */
  lemma LeftmostTuple(fs: seq<Fn>, xs: seq<Value>, e: seq<Value>)
    requires |fs| > 0 && fs[0](Pipeline(fs[1..], xs)) == Tuple(e)
    ensures Compose(fs)(xs) == ArgAt(e, 0)
  {
    ComposeIsPipeline(fs, xs);
  }

  /** Composition is associative: `compose(...fs, ...gs)(...xs)` is
      `compose(...fs)` applied to the argument list that `gs` produces. */
  lemma ComposeAppend(fs: seq<Fn>, gs: seq<Fn>, xs: seq<Value>)
    ensures Compose(fs + gs)(xs) == Compose(fs)(Pipeline(gs, xs))
  {
    ComposeIsPipeline(fs + gs, xs);
    PipelineAppend(fs, gs, xs);
    ComposeIsPipeline(fs, Pipeline(gs, xs));
  }

  /** `_.reverse` on the stage list. */
  function Reverse<T>(s: seq<T>): (r: seq<T>)
    ensures |r| == |s|
    decreases |s|
  {
    if s == [] then [] else Reverse(s[1..]) + [s[0]]
  }

  lemma {:induction false} ReverseAt<T>(s: seq<T>, k: nat)
    requires k < |s|
    ensures Reverse(s)[k] == s[|s| - 1 - k]
    decreases |s|
  {
    if k < |s| - 1 {
      ReverseAt(s[1..], k);
    }
  }

  lemma ReverseReverse<T>(s: seq<T>)
    ensures Reverse(Reverse(s)) == s
  {
    forall k | 0 <= k < |s|
      ensures Reverse(Reverse(s))[k] == s[k]
    {
      ReverseAt(Reverse(s), k);
      ReverseAt(s, |s| - 1 - k);
    }
  }

  /** `chain(...fs)`: `compose` over the reversed stage list. */
  function Chain(fs: seq<Fn>): Fn
  {
    Compose(Reverse(fs))
  }

  /** Reference semantics of a left-to-right pipeline: run the first stage,
      turn its result into arguments, continue with the rest. */
  function Forward(fs: seq<Fn>, xs: seq<Value>): seq<Value>
    decreases |fs|
  {
    if fs == [] then xs else Forward(fs[1..], NextArgs(fs[0](xs)))
  }

  lemma {:induction false} PipelineReverse(fs: seq<Fn>, xs: seq<Value>)
    ensures Pipeline(Reverse(fs), xs) == Forward(fs, xs)
    decreases |fs|
  {
    if fs != [] {
      PipelineSnoc(Reverse(fs[1..]), fs[0], xs);
      PipelineReverse(fs[1..], NextArgs(fs[0](xs)));
    }
  }

  /** `chain(...fs)(...xs)` runs the stages first to last, with the same
      spreading rule as `compose`, and returns the first value of the final
      argument list. */
  lemma ChainIsForward(fs: seq<Fn>, xs: seq<Value>)
    ensures Chain(fs)(xs) == ArgAt(Forward(fs, xs), 0)
  {
    ComposeIsPipeline(Reverse(fs), xs);
    PipelineReverse(fs, xs);
  }

  /** `chain(f, g)(x) == g(f(x))` when neither stage returns a Tuple. */
  lemma ChainTwo(f: Fn, g: Fn, xs: seq<Value>)
    requires !f(xs).Tuple? && !g([f(xs)]).Tuple?
    ensures Chain([f, g])(xs) == g([f(xs)])
  {
    assert [f, g][1..] == [g] && [g][1..] == [];
    assert Reverse([f, g]) == [g, f];
    ComposeTwo(g, f, xs);
  }

  /** `chain(fn, ..., f1)` behaves exactly as `compose(f1, ..., fn)`. */
  lemma ChainOfReversed(fs: seq<Fn>, xs: seq<Value>)
    ensures Chain(Reverse(fs))(xs) == Compose(fs)(xs)
  {
    ReverseReverse(fs);
  }
}
