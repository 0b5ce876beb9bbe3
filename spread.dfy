/** `F.spread` and `F.unspread`: converting between a function of many
    positional arguments and a function of one array argument. */
module Spreading {
  import opened Values

  /** `spread(f)`: `(...args) => f(args)`, all arguments collected into one
      array passed as the single argument. */
  function Spread<R>(f: seq<Value> -> R): seq<Value> -> R
  {
    args => f([Arr(args)])
  }

  /** `unspread(f)`: `args => f(...args)`, the first argument spread as the
      positional arguments of `f`; further arguments are ignored. Spreading a
      value that is not iterable throws a TypeError, which the result reports
      as `None`. */
  function Unspread(f: Fn): seq<Value> -> Option<Value>
  {
    xs => match SpreadArgs(ArgAt(xs, 0))
          case None => None
          case Some(args) => Some(f(args))
  }

  /** `unspread(f)([a1, ..., ak]) == f(a1, ..., ak)` for an array argument;
      a string argument is spread into its characters; with no argument, or
      any other first argument, JavaScript throws. */
  lemma UnspreadCall(f: Fn, xs: seq<Value>)
    ensures Unspread(f)(xs).Some? <==> |xs| > 0 && (xs[0].Arr? || xs[0].Str?)
    ensures |xs| > 0 && xs[0].Arr? ==> Unspread(f)(xs) == Some(f(xs[0].items))
    ensures |xs| > 0 && xs[0].Str? ==> Unspread(f)(xs) == Some(f(Chars(xs[0].s)))
  {
    var first := ArgAt(xs, 0);
    assert SpreadArgs(first).None? ==> Unspread(f)(xs) == None;
    assert SpreadArgs(first).Some? ==> Unspread(f)(xs) == Some(f(SpreadArgs(first).value));
    if first.Str? {
      assert SpreadArgs(first) == Some(Chars(first.s));
    }
  }

  /** `unspread(spread(f))(arr) == f(arr)`: the array is taken apart and
      rebuilt with its elements in the same order. */
  lemma UnspreadOfSpread(f: Fn, items: seq<Value>, rest: seq<Value>)
    ensures Unspread(Spread(f))([Arr(items)] + rest) == Some(f([Arr(items)]))
  {
    var xs := [Arr(items)] + rest;
    assert xs[0] == Arr(items);
    UnspreadCall(Spread(f), xs);
  }

  /** `spread(unspread(f))(a1, ..., ak) == f(a1, ..., ak)`: the array that
      `spread` builds is always iterable, and `unspread` hands its elements
      back unchanged. */
  lemma SpreadOfUnspread(f: Fn, args: seq<Value>)
    ensures Spread(Unspread(f))(args) == Some(f(args))
  {
    UnspreadCall(f, [Arr(args)]);
  }
}
