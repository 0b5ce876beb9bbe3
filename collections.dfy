/** `F._.map` and `F._.filter`: curried forms of lodash's `map` and
    `filter`, usable as pipeline stages or as per-key functions. */
module Collections {
  import opened Values

  /** Lodash `map` over a sequence: the callback applied to each element. */
  function MapSeq(cb: Fn, s: seq<Value>): (r: seq<Value>)
    ensures |r| == |s|
    ensures forall i :: 0 <= i < |s| ==> r[i] == cb([s[i]])
    decreases |s|
  {
    if s == [] then [] else [cb([s[0]])] + MapSeq(cb, s[1..])
  }

  /** Lodash `filter` over a sequence: the elements whose callback result is
      truthy, in their original order. */
  function FilterSeq(cb: Fn, s: seq<Value>): (r: seq<Value>)
    ensures |r| <= |s|
    ensures forall x :: x in r ==> x in s && Truthy(cb([x]))
    ensures forall i :: 0 <= i < |s| && Truthy(cb([s[i]])) ==> s[i] in r
    decreases |s|
  {
    if s == [] then []
    else if Truthy(cb([s[0]])) then [s[0]] + FilterSeq(cb, s[1..])
    else FilterSeq(cb, s[1..])
  }

  /** `_.map(cb)`: `arr => _.map(arr, cb)`. */
  function Map(cb: Fn): Fn
  {
    xs => Arr(MapSeq(cb, Collection(ArgAt(xs, 0))))
  }

  /** `_.filter(cb)`: `arr => _.filter(arr, cb)`. */
  function Filter(cb: Fn): Fn
  {
    xs => Arr(FilterSeq(cb, Collection(ArgAt(xs, 0))))
  }

  /** `_.map(cb)(arr)` is a new array of the same length whose i-th element
      is `cb(arr[i])`. */
  lemma MapCall(cb: Fn, arr: seq<Value>, rest: seq<Value>)
    ensures Map(cb)([Arr(arr)] + rest).Arr?
    ensures |Map(cb)([Arr(arr)] + rest).items| == |arr|
    ensures forall i :: 0 <= i < |arr| ==> Map(cb)([Arr(arr)] + rest).items[i] == cb([arr[i]])
  {
    var xs := [Arr(arr)] + rest;
    assert ArgAt(xs, 0) == Arr(arr);
    assert Collection(ArgAt(xs, 0)) == arr;
  }

  /** `_.filter(cb)(arr)` is a new array whose elements all pass `cb`, each
      passing value as often as in `arr` and no other value. That they keep
      their relative order is `FilterAppend` with `FilterSingleton`. */
  lemma FilterCall(cb: Fn, arr: seq<Value>, rest: seq<Value>)
    ensures Filter(cb)([Arr(arr)] + rest).Arr?
    ensures forall x :: x in Filter(cb)([Arr(arr)] + rest).items ==> Truthy(cb([x]))
    ensures forall x :: multiset(Filter(cb)([Arr(arr)] + rest).items)[x]
                        == if Truthy(cb([x])) then multiset(arr)[x] else 0
  {
    var xs := [Arr(arr)] + rest;
    assert ArgAt(xs, 0) == Arr(arr);
    assert Collection(ArgAt(xs, 0)) == arr;
    FilterCounts(cb, arr);
  }

  /** `_.map(cb)(str)` visits the characters of a string in order, each as a
      one-character string. */
  lemma MapString(cb: Fn, str: string, rest: seq<Value>)
    ensures Map(cb)([Str(str)] + rest).Arr?
    ensures |Map(cb)([Str(str)] + rest).items| == |str|
    ensures forall i :: 0 <= i < |str| ==> Map(cb)([Str(str)] + rest).items[i] == cb([Str([str[i]])])
  {
    var xs := [Str(str)] + rest;
    assert ArgAt(xs, 0) == Str(str);
    assert Collection(ArgAt(xs, 0)) == Chars(str);
  }

  /** `_.map(cb)` on a Tuple visits its one enumerable property, the array of
      its elements. */
  lemma MapTuple(cb: Fn, e: seq<Value>, rest: seq<Value>)
    ensures Map(cb)([Tuple(e)] + rest) == Arr([cb([Arr(e)])])
  {
    var xs := [Tuple(e)] + rest;
    assert ArgAt(xs, 0) == Tuple(e);
    assert MapSeq(cb, [Arr(e)]) == [cb([Arr(e)])];
  }

  /** `_.map(cb)` on `undefined`, `null`, a boolean or a number, or with no
      argument at all, never calls `cb` and gives an empty array. */
  lemma MapPrimitive(cb: Fn, xs: seq<Value>)
    requires xs == [] || !(xs[0].Arr? || xs[0].Str? || xs[0].Tuple?)
    ensures Map(cb)(xs) == Arr([])
  {
    assert Collection(ArgAt(xs, 0)) == [];
  }

  /** `_.filter(cb)` on a Tuple keeps the array of its elements exactly when
      `cb` accepts it. */
  lemma FilterTuple(cb: Fn, e: seq<Value>, rest: seq<Value>)
    ensures Filter(cb)([Tuple(e)] + rest) == if Truthy(cb([Arr(e)])) then Arr([Arr(e)]) else Arr([])
  {
    var xs := [Tuple(e)] + rest;
    assert ArgAt(xs, 0) == Tuple(e);
    FilterSingleton(cb, Arr(e));
  }

  /** `_.filter(cb)` on `undefined`, `null`, a boolean or a number, or with no
      argument at all, gives an empty array. */
  lemma FilterPrimitive(cb: Fn, xs: seq<Value>)
    requires xs == [] || !(xs[0].Arr? || xs[0].Str? || xs[0].Tuple?)
    ensures Filter(cb)(xs) == Arr([])
  {
    assert Collection(ArgAt(xs, 0)) == [];
  }

  /** Mapping commutes with concatenation: order is preserved. */
  lemma MapAppend(cb: Fn, s: seq<Value>, t: seq<Value>)
    ensures MapSeq(cb, s + t) == MapSeq(cb, s) + MapSeq(cb, t)
  {
  }

  /** Filtering commutes with concatenation: the kept elements of a prefix
      come before those of the suffix. */
  lemma {:induction false} FilterAppend(cb: Fn, s: seq<Value>, t: seq<Value>)
    ensures FilterSeq(cb, s + t) == FilterSeq(cb, s) + FilterSeq(cb, t)
    decreases |s|
  {
    if s == [] {
      assert [] + t == t;
    } else {
      assert (s + t)[0] == s[0];
      assert (s + t)[1..] == s[1..] + t;
      FilterAppend(cb, s[1..], t);
    }
  }

  /** Filtering keeps every passing value exactly as often as it occurs in
      the input, and no other value: nothing is duplicated or dropped. */
  lemma {:induction false} FilterCounts(cb: Fn, s: seq<Value>)
    ensures forall x :: multiset(FilterSeq(cb, s))[x]
                        == if Truthy(cb([x])) then multiset(s)[x] else 0
    decreases |s|
  {
    if s != [] {
      assert s == [s[0]] + s[1..];
      FilterCounts(cb, s[1..]);
    }
  }

  /** A one-element sequence is kept exactly when its element passes. */
  lemma FilterSingleton(cb: Fn, x: Value)
    ensures FilterSeq(cb, [x]) == if Truthy(cb([x])) then [x] else []
  {
    assert [x][1..] == [];
  }

  /** Nothing is dropped when every element passes. */
  lemma {:induction false} FilterKeepsAll(cb: Fn, s: seq<Value>)
    requires forall i :: 0 <= i < |s| ==> Truthy(cb([s[i]]))
    ensures FilterSeq(cb, s) == s
    decreases |s|
  {
    if s != [] {
      FilterKeepsAll(cb, s[1..]);
    }
  }

  /** Filtering twice with the same callback keeps the same elements. */
  lemma FilterIdempotent(cb: Fn, s: seq<Value>)
    ensures FilterSeq(cb, FilterSeq(cb, s)) == FilterSeq(cb, s)
  {
    var r := FilterSeq(cb, s);
    forall i | 0 <= i < |r|
      ensures Truthy(cb([r[i]]))
    {
      assert r[i] in r;
    }
    FilterKeepsAll(cb, r);
  }
}
