/** JavaScript values as the combinators see them, the Tuple carrier, and the
    small helpers the combinators share (positional argument access,
    truthiness, and how lodash views a value as a collection). */
module Values {

  datatype Option<T> = None | Some(value: T)

  /** A JavaScript value that flows through a pipeline. Numbers are modelled as
      integers. `Tuple` is an instance of `F.Tuple`: an object whose only own
      property, `elements`, holds the array of values to spread into the next
      stage. */
  datatype Value =
    | Undefined
    | Null
    | Bool(b: bool)
    | Num(n: int)
    | Str(s: string)
    | Arr(items: seq<Value>)
    | Tuple(elements: seq<Value>)

  /** A pipeline stage: a JavaScript function called with a positional
      argument list. */
  type Fn = seq<Value> -> Value

  /** A property key of an object: an array index, or any other name.
      JavaScript treats `"2"` and `2` as the same key; the model writes both
      `Index(2)`, so a key in use is always `CanonicalKey`. */
  datatype Key = Index(i: nat) | Name(s: string)

  /** The decimal spelling of an array index: digits only, and no leading
      zero unless the number is zero itself. */
  predicate IndexSpelling(s: string)
  {
    && |s| > 0
    && (forall i :: 0 <= i < |s| ==> '0' <= s[i] <= '9')
    && (s[0] == '0' ==> |s| == 1)
  }

  /** A key written the model's way: an index is never a `Name`. */
  predicate CanonicalKey(k: Key)
  {
    k.Name? ==> !IndexSpelling(k.s)
  }

  /** The digit character for `d`. */
  function Digit(d: nat): char
    requires d < 10
  {
    (('0' as int) + d) as char
  }

  /** The decimal spelling of `n`, as `String(n)` writes it. */
  function Decimal(n: nat): (r: string)
    ensures |r| > 0
  {
    if n < 10 then [Digit(n)] else Decimal(n / 10) + [Digit(n % 10)]
  }

  /** The property name JavaScript uses for a key. */
  function KeySpelling(k: Key): string
  {
    match k
    case Index(i) => Decimal(i)
    case Name(s) => s
  }

  /** Every index spells as an index, and only zero starts with `0`. */
  lemma {:induction false} DecimalIsIndexSpelling(n: nat)
    ensures IndexSpelling(Decimal(n))
    ensures n > 0 ==> Decimal(n)[0] != '0'
  {
    if n >= 10 {
      DecimalIsIndexSpelling(n / 10);
      assert Decimal(n)[0] == Decimal(n / 10)[0];
    }
  }

  /** Different indices have different spellings. */
  lemma {:induction false} DecimalInjective(a: nat, b: nat)
    requires Decimal(a) == Decimal(b)
    ensures a == b
  {
    var da, db := Decimal(a), Decimal(b);
    assert da[|da| - 1] == db[|db| - 1];
    if a >= 10 && b >= 10 {
      assert Decimal(a / 10) == da[..|da| - 1] == db[..|db| - 1] == Decimal(b / 10);
      DecimalInjective(a / 10, b / 10);
    }
  }

  /** Two canonical keys name the same JavaScript property exactly when they
      are the same key: `Key` equality is property-name equality. */
  lemma SameProperty(k1: Key, k2: Key)
    requires CanonicalKey(k1) && CanonicalKey(k2)
    ensures KeySpelling(k1) == KeySpelling(k2) <==> k1 == k2
  {
    if k1.Index? {
      DecimalIsIndexSpelling(k1.i);
      if k2.Index? && KeySpelling(k1) == KeySpelling(k2) {
        DecimalInjective(k1.i, k2.i);
      }
    }
    if k2.Index? {
      DecimalIsIndexSpelling(k2.i);
    }
  }

  /** The i-th positional argument, `undefined` when fewer were passed. */
  function ArgAt(xs: seq<Value>, i: nat): Value
  {
    if i < |xs| then xs[i] else Undefined
  }

  /** JavaScript truthiness (NaN is not a modelled number). */
  predicate Truthy(v: Value)
  {
    match v
    case Undefined => false
    case Null => false
    case Bool(b) => b
    case Num(n) => n != 0
    case Str(s) => s != ""
    case Arr(_) => true
    case Tuple(_) => true
  }

  /** Each character of a string as a one-character string, as iterating a
      JavaScript string yields. */
  function Chars(s: string): seq<Value>
  {
    seq(|s|, i requires 0 <= i < |s| => Str([s[i]]))
  }

  /** The elements lodash's collection functions visit in `v`: the items of an
      array, the characters of a string, the own enumerable property values of
      an object (a Tuple has exactly one, `elements`), and nothing at all for
      `undefined`, `null`, booleans and numbers. */
  function Collection(v: Value): seq<Value>
  {
    match v
    case Arr(items) => items
    case Str(s) => Chars(s)
    case Tuple(e) => [Arr(e)]
    case _ => []
  }

  /** The argument list produced by spread syntax `f(...v)`: defined only for
      iterable values (arrays and strings); JavaScript throws a TypeError for
      every other value. */
  function SpreadArgs(v: Value): Option<seq<Value>>
  {
    match v
    case Arr(items) => Some(items)
    case Str(s) => Some(Chars(s))
    case _ => None
  }
}
