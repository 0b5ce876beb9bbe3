/** `F.mult`: positional fan-out of arguments over a list of functions, the
    results packed into a Tuple so that a following `compose` stage receives
    them as separate arguments. */
module Multiply {
  import opened Values
  import opened Composition

  /** `mult(...fs)`: `(...x) => new Tuple(...fs.map((f, i) => f(x[i])))`.
      Each function is called with exactly one argument, its positional
      partner, which is `undefined` when too few arguments were passed. */
  function Mult(fs: seq<Fn>): Fn
  {
    xs => Tuple(seq(|fs|, i requires 0 <= i < |fs| => fs[i]([ArgAt(xs, i)])))
  }

  /** `mult(f1, ..., fn)(x1, ..., xk)` is a Tuple of exactly n elements whose
      i-th is `fi(xi)`, with a missing `xi` passed as `undefined`. */
  lemma MultCall(fs: seq<Fn>, xs: seq<Value>)
    ensures Mult(fs)(xs).Tuple?
    ensures |Mult(fs)(xs).elements| == |fs|
    ensures forall i :: 0 <= i < |fs| && i < |xs| ==> Mult(fs)(xs).elements[i] == fs[i]([xs[i]])
    ensures forall i :: |xs| <= i < |fs| ==> Mult(fs)(xs).elements[i] == fs[i]([Undefined])
  {
    var e := Mult(fs)(xs).elements;
    forall i | 0 <= i < |fs|
      ensures e[i] == fs[i]([ArgAt(xs, i)])
    {
    }
  }

  /** Arguments beyond the number of functions are ignored. */
  lemma MultIgnoresExtraArgs(fs: seq<Fn>, xs: seq<Value>, extra: seq<Value>)
    requires |xs| >= |fs|
    ensures Mult(fs)(xs + extra) == Mult(fs)(xs)
  {
    var a, b := Mult(fs)(xs + extra), Mult(fs)(xs);
    forall i | 0 <= i < |fs|
      ensures a.elements[i] == b.elements[i]
    {
      assert ArgAt(xs + extra, i) == ArgAt(xs, i);
    }
  }

  /** `compose(h, mult(f1, ..., fn))(x1, ..., xn) == h(f1(x1), ..., fn(xn))`:
      the Tuple built by `mult` reaches `h` as n separate arguments. */
  lemma ComposeMult(h: Fn, fs: seq<Fn>, xs: seq<Value>)
    requires !h(Mult(fs)(xs).elements).Tuple?
    ensures Compose([h, Mult(fs)])(xs) == h(Mult(fs)(xs).elements)
  {
    ComposeSpreadsTuple(h, Mult(fs), xs, Mult(fs)(xs).elements);
  }
}
