/** The library's own usage scenarios, restated over the model. The sample
    callbacks model the arithmetic the tests use: numbers, and `+` on two
    strings. Given other arguments, `AddNum`, `Twice`, `Product`,
    `BumpBoth` and `Plus` return `undefined`, while `Pair` collects any two
    values. */
module Scenarios {
  import opened Values
  import opened Composition
  import opened Spreading
  import opened Multiply
  import opened ObjectMap

  /** `x => x + k` on numbers. */
  function AddNum(k: int): Fn
  {
    xs => match ArgAt(xs, 0)
          case Num(n) => Num(n + k)
          case _ => Undefined
  }

  /** `x => 2 * x` on numbers. */
  function Twice(): Fn
  {
    xs => match ArgAt(xs, 0)
          case Num(n) => Num(2 * n)
          case _ => Undefined
  }

  /** `(x, y) => x * y` on numbers. */
  function Product(): Fn
  {
    xs => match (ArgAt(xs, 0), ArgAt(xs, 1))
          case (Num(x), Num(y)) => Num(x * y)
          case _ => Undefined
  }

  /** `(x, y) => new Tuple(x + 1, y + 1)` on numbers. */
  function BumpBoth(): Fn
  {
    xs => match (ArgAt(xs, 0), ArgAt(xs, 1))
          case (Num(x), Num(y)) => Tuple([Num(x + 1), Num(y + 1)])
          case _ => Undefined
  }

  /** JavaScript `a + b` on two numbers or on two strings. */
  function Plus(a: Value, b: Value): Value
  {
    match (a, b)
    case (Num(x), Num(y)) => Num(x + y)
    case (Str(x), Str(y)) => Str(x + y)
    case _ => Undefined
  }

  /** `s.reduce((a, b) => a + b, acc)`. */
  function SumFrom(acc: Value, s: seq<Value>): Value
    decreases |s|
  {
    if s == [] then acc else SumFrom(Plus(acc, s[0]), s[1..])
  }

  /** `arr => arr.reduce((a, b) => a + b)` on a non-empty array. */
  function Sum(): Fn
  {
    xs => match ArgAt(xs, 0)
          case Arr(items) => if items == [] then Undefined else SumFrom(items[0], items[1..])
          case _ => Undefined
  }

  /** `(a, b, c) => a + b + c`. */
  function AddThree(): Fn
  {
    xs => Plus(Plus(ArgAt(xs, 0), ArgAt(xs, 1)), ArgAt(xs, 2))
  }

  /** `(x, y) => [x, y]`: collects two arguments. */
  function Pair(): Fn
  {
    xs => Arr([ArgAt(xs, 0), ArgAt(xs, 1)])
  }

  /** `[1, 2, 3].map(compose(x => x + 1, x => 2 * x))` is `[3, 5, 7]`:
      `Array.prototype.map` also passes the index and the array, which the
      stages ignore. */
  lemma ComposeBasic(n: int, rest: seq<Value>)
    ensures Compose([AddNum(1), Twice()])([Num(n)] + rest) == Num(2 * n + 1)
  {
    var xs := [Num(n)] + rest;
    assert ArgAt(xs, 0) == Num(n);
    assert Twice()(xs) == Num(2 * n);
    assert ArgAt([Num(2 * n)], 0) == Num(2 * n);
    assert AddNum(1)([Num(2 * n)]) == Num(2 * n + 1);
    ComposeTwo(AddNum(1), Twice(), xs);
  }

  /** `compose((x, y) => x * y, (x, y) => new Tuple(x + 1, y + 1))(5, 6)`
      is 42. */
  lemma ComposeMultiVariable()
    ensures Compose([Product(), BumpBoth()])([Num(5), Num(6)]) == Num(42)
  {
    assert ArgAt([Num(5), Num(6)], 0) == Num(5) && ArgAt([Num(5), Num(6)], 1) == Num(6);
    assert BumpBoth()([Num(5), Num(6)]) == Tuple([Num(6), Num(7)]);
    assert ArgAt([Num(6), Num(7)], 0) == Num(6) && ArgAt([Num(6), Num(7)], 1) == Num(7);
    assert Product()([Num(6), Num(7)]) == Num(42);
    ComposeSpreadsTuple(Product(), BumpBoth(), [Num(5), Num(6)], [Num(6), Num(7)]);
  }

  /** `compose()` as the callback of `Array.prototype.map` returns each
      value it is given, whatever the index and array passed beside it. */
  lemma ComposeEmptyScenario(i: nat)
    requires i < 5
    ensures var values := [Num(5), Str("hello"), Num(-12), Null, Undefined];
            Compose([])([values[i], Num(i), Arr(values)]) == values[i]
  {
  }

  /** `[1, 2, 3].map(chain(x => x + 1, x => 2 * x))` is `[4, 6, 8]`. */
  lemma ChainBasic(n: int, rest: seq<Value>)
    ensures Chain([AddNum(1), Twice()])([Num(n)] + rest) == Num(2 * n + 2)
  {
    var xs := [Num(n)] + rest;
    assert ArgAt(xs, 0) == Num(n);
    assert AddNum(1)(xs) == Num(n + 1);
    assert ArgAt([Num(n + 1)], 0) == Num(n + 1);
    assert Twice()([Num(n + 1)]) == Num(2 * n + 2);
    ChainTwo(AddNum(1), Twice(), xs);
  }

  /** `spread(arr => arr.reduce((a, b) => a + b))` gives 6 on `(1, 2, 3)`
      and `'abc'` on `('a', 'b', 'c')`. */
  lemma SpreadScenario()
    ensures Spread(Sum())([Num(1), Num(2), Num(3)]) == Num(6)
    ensures Spread(Sum())([Str("a"), Str("b"), Str("c")]) == Str("abc")
  {
    assert SumFrom(Num(1), [Num(2), Num(3)]) == SumFrom(Num(3), [Num(3)]) == Num(6);
    assert "a" + "b" == "ab" && "ab" + "c" == "abc";
    assert SumFrom(Str("a"), [Str("b"), Str("c")]) == SumFrom(Str("ab"), [Str("c")]) == Str("abc");
  }

  /** `unspread((a, b, c) => a + b + c)` gives 6 on `[1, 2, 3]` and `'abc'`
      on `['a', 'b', 'c']`. */
  lemma UnspreadScenario()
    ensures Unspread(AddThree())([Arr([Num(1), Num(2), Num(3)])]) == Some(Num(6))
    ensures Unspread(AddThree())([Arr([Str("a"), Str("b"), Str("c")])]) == Some(Str("abc"))
  {
    var nums, strs := [Num(1), Num(2), Num(3)], [Str("a"), Str("b"), Str("c")];
    UnspreadCall(AddThree(), [Arr(nums)]);
    UnspreadCall(AddThree(), [Arr(strs)]);
    assert ArgAt(nums, 0) == Num(1) && ArgAt(nums, 1) == Num(2) && ArgAt(nums, 2) == Num(3);
    assert ArgAt(strs, 0) == Str("a") && ArgAt(strs, 1) == Str("b") && ArgAt(strs, 2) == Str("c");
    assert "a" + "b" == "ab" && "ab" + "c" == "abc";
  }

  /** `compose((x, y) => [x, y], mult(x => x + 1, y => y - 1))(1, 1)` gives
      `[2, 0]`. */
  lemma MultScenario()
    ensures Compose([Pair(), Mult([AddNum(1), AddNum(-1)])])([Num(1), Num(1)]) == Arr([Num(2), Num(0)])
  {
    var fs := [AddNum(1), AddNum(-1)];
    var xs := [Num(1), Num(1)];
    MultCall(fs, xs);
    assert Mult(fs)(xs).elements == [Num(2), Num(0)];
    ComposeMult(Pair(), fs, xs);
  }

  /** `object({a: x => x + 1, b: x => 2 * x})({a: 15, b: 11})` is
      `{a: 16, b: 22}`. */
  method ObjectBasic() returns (props: map<Key, Value>)
    ensures props == map[Name("a") := Num(16), Name("b") := Num(22)]
  {
    var obj := new JsObject([Name("a"), Name("b")], [Num(15), Num(11)]);
    var m: Mapping := map[Name("a") := Some(AddNum(1)), Name("b") := Some(Twice())];
    assert obj.props[Name("a")] == Num(15) && obj.props[Name("b")] == Num(11);
    ghost var before := obj.props;
    assert before.Keys == {Name("a"), Name("b")};
    var r := TransformObject(m, obj);
    props := r.props;
    assert AddNum(1)([Num(15)]) == Num(16) && Twice()([Num(11)]) == Num(22);
    assert props[Name("a")] == Num(16) && props[Name("b")] == Num(22);
  }

  /** `object({b: x => x + 1})({a: 1})` leaves the object as it was. */
  method ObjectDoesNotContainKey() returns (props: map<Key, Value>)
    ensures props == map[Name("a") := Num(1)]
  {
    assert "a"[0] == 'a' && "b"[0] == 'b';
    var obj := new JsObject([Name("a")], [Num(1)]);
    var m: Mapping := map[Name("b") := Some(AddNum(1))];
    var before := obj.props;
    var r := TransformObject(m, obj);
    TransformUnmatched(m, before);
    props := r.props;
  }

  /** `object([x => x + 1, x => x + 2, x => x + 3])([1, 2, 3])` is
      `[2, 4, 6]`. */
  method ArrayMapping() returns (elements: seq<Value>)
    ensures elements == [Num(2), Num(4), Num(6)]
  {
    var a := new Value[3];
    a[0], a[1], a[2] := Num(1), Num(2), Num(3);
    var m: Mapping := map[Index(0) := Some(AddNum(1)), Index(1) := Some(AddNum(2)), Index(2) := Some(AddNum(3))];
    var r := TransformArray(m, a);
    elements := r[..];
  }

  /** `object({2: x => x + 7})([1, 4, -7])` is `[1, 4, 0]`. */
  method ArraysAndObjects() returns (elements: seq<Value>)
    ensures elements == [Num(1), Num(4), Num(0)]
  {
    var a := new Value[3];
    a[0], a[1], a[2] := Num(1), Num(4), Num(-7);
    var m: Mapping := map[Index(2) := Some(AddNum(7))];
    var r := TransformArray(m, a);
    elements := r[..];
  }
}
