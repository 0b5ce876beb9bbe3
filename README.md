# lofunc in Dafny

A verified model of `lofunc`, a small JavaScript algebra of function
combinators:

- `compose` builds a right-to-left pipeline. A stage that returns an
  `F.Tuple` has the tuple's elements passed to the next stage as positional
  arguments.
- `chain` is `compose` over the reversed list of stages.
- `spread` and `unspread` convert between a function of many arguments and
  a function of one array argument.
- `mult` applies the i-th function to the i-th argument and packs the
  results into a Tuple.
- `object` rewrites the keys of an object or array in place, using a mapping
  from keys to functions.
- `_.map` and `_.filter` are curried sequence map and filter.

The model is split into modules:

- `Values` (`values.dfy`): JavaScript values, including the Tuple carrier.
  Also positional argument access, truthiness, and how lodash and spread
  syntax iterate a value.
- `Composition` (`compose.dfy`): `compose` and `chain`.
- `Spreading` (`spread.dfy`): `spread` and `unspread`.
- `Multiply` (`mult.dfy`): `mult`.
- `Collections` (`collections.dfy`): `_.map` and `_.filter`.
- `ObjectMap` (`object.dfy`): `object`.
- `Scenarios` (`examples.dfy`): the library's test scenarios, restated
  over the model.

Representation:

- A stage is a total Dafny function `seq<Value> -> Value`, applied to its
  list of positional arguments.
- `compose(...fs)` is `Compose(fs)`, a function that runs the recursive
  `Composed(fs, xs)` on its arguments. Like the source, `Composed` peels
  off the last stage. Its partner is `Pipeline`, an independent definition
  that peels off the first stage instead and returns the final argument
  list. `ComposeIsPipeline` proves that, on every stage list and every
  argument list, the composed function returns the first value of that
  list (`undefined` when it is empty).
- `Forward` is a left-to-right fold that also returns the final argument
  list. `ChainIsForward` proves that `chain` returns the first value of
  that list.
- `object` is imperative, as in the source:
  - `TransformObject` loops over the key list of a `JsObject` and
    overwrites its property map in place.
  - `TransformArray` overwrites an `array<Value>` in place.
  - Both return the object they were given.
  - Both are proved against the pure functions `Transformed` and
    `TransformedSeq`.
  - `ArrayAsObject` shows that array indices behave as keys.

Behaviour at the edges, as the library implements it:

- `object` mutates its argument and returns it (src/lofunc.js:79-86). It
  does not copy the input.
- `compose()` is `x => x`. Called with several arguments, it returns the
  first one. Called with none, it returns `undefined`.
- `mult` calls every function with exactly one argument, `undefined` when
  that argument is missing. It ignores extra arguments.

Two notes on the tests:

- test/compose.js:29-36 calls `F.composeReverse`, which the library does
  not define. The values it asserts are those of `chain`, and
  `Scenarios.ChainBasic` states them for `Chain`.
- test/mult.js formats its result as a string. `Scenarios.MultScenario`
  collects the two values into an array instead.

## Model

| member | source | states |
|---|---|---|
| `Composition.NextArgs` | src/lofunc.js:30 | Definition: a stage's result becomes the next argument list, a Tuple's elements or any other value as the one argument. The spreading rule is proved about compose by `ComposeSpreadsTuple` and `PipelineSnoc`. |
| `Composition.Identity` | src/lofunc.js:22-24 | `compose()` is `x => x`: it returns its first argument. |
| `Composition.Compose` | src/lofunc.js:21-34 | `compose(...fs)` is the function that runs `Composed(fs, _)` on its arguments. |
| `Composition.Composed` | src/lofunc.js:21-34 | The last stage runs on all arguments, its result goes through `NextArgs`, and the remaining stages run on that list. With no stages, `x => x`. |
| `Composition.ComposeIsPipeline` | src/lofunc.js:21-34 | `compose(...fs)(...xs)` equals the first value of the argument list left after running the stages from last to first. This matches an independent definition that peels the first stage. |
| `Composition.ComposeEmpty` | src/lofunc.js:22-24 | `compose()` returns its single argument unchanged. With no argument it returns `undefined`. |
| `Composition.ComposeTwo` | src/lofunc.js:28-32 | `compose(f, g)(x) == f(g(x))` when neither stage returns a Tuple. |
| `Composition.ComposeSpreadsTuple` | src/lofunc.js:29-32 | A Tuple returned by `g` is spread as the arguments of `f`: `compose(f, g)(...xs) == f(...elements)`. |
| `Composition.LeftmostTuple` | src/lofunc.js:22-32 | If the leftmost stage returns a Tuple, the composed function returns that tuple's first element, or `undefined` if it is empty. |
| `Composition.PipelineSnoc` | src/lofunc.js:28-32 | Adding a stage on the right means its spread result becomes the argument list of the other stages. |
| `Composition.PipelineAppend` | src/lofunc.js:21-34 | When a stage list is split in two, the right part's final argument list feeds the left part. |
| `Composition.ComposeAppend` | src/lofunc.js:21-34 | `compose(...fs, ...gs)(...xs)` equals `compose(...fs)` applied to the arguments that `gs` produces. |
| `Composition.Reverse` | src/lofunc.js:43 | `_.reverse` on the stage list keeps its length. |
| `Composition.ReverseAt` | src/lofunc.js:43 | The reversed stage list holds the k-th stage from the end at position k. |
| `Composition.ReverseReverse` | src/lofunc.js:43 | Reversing the stage list twice gives it back. |
| `Composition.Chain` | src/lofunc.js:42-44 | `chain(...fs)` is `compose` over the reversed stage list. |
| `Composition.ChainIsForward` | src/lofunc.js:42-44 | `chain(...fs)` runs the stages first to last, with the same spreading rule. It returns the first value of the final argument list. |
| `Composition.ChainTwo` | src/lofunc.js:42-44 | `chain(f, g)(x) == g(f(x))` when neither stage returns a Tuple. |
| `Composition.ChainOfReversed` | src/lofunc.js:42-44 | `chain(fn, ..., f1)` behaves exactly as `compose(f1, ..., fn)` on every argument list. |
| `Spreading.Spread` | src/lofunc.js:52-54 | `spread(f)` collects all its arguments, in order, into one array passed as `f`'s single argument. |
| `Spreading.Unspread` | src/lofunc.js:62-64 | `unspread(f)` spreads its first argument as `f`'s positional arguments. It gives `None` where JavaScript throws a TypeError. |
| `Spreading.UnspreadCall` | src/lofunc.js:62-64 | `unspread(f)` is defined exactly when its first argument is an array or a string. It calls `f` with the array's items or the string's characters. |
| `Spreading.UnspreadOfSpread` | src/lofunc.js:52-64 | `unspread(spread(f))(arr) == f(arr)`. |
| `Spreading.SpreadOfUnspread` | src/lofunc.js:52-64 | `spread(unspread(f))(a1..ak) == f(a1..ak)`. The array that `spread` builds is always accepted, so no TypeError arises. |
| `Values.SpreadArgs` | src/lofunc.js:63 | Definition: the argument list spread syntax produces, for arrays and strings only. Its cases are proved about `unspread` by `UnspreadCall` and `SpreadOfUnspread`. |
| `Values.Collection` | src/lofunc.js:119 | Definition: lodash's collection view of a value. Its cases are proved about `_.map` and `_.filter` by `MapCall`, `MapString`, `MapTuple`, `MapPrimitive`, `FilterCall`, `FilterTuple` and `FilterPrimitive`. |
| `Values.Decimal` | src/lofunc.js:80-81 | The property name of an array index is never empty. |
| `Values.DecimalIsIndexSpelling` | src/lofunc.js:80-81 | The name of every index consists of decimal digits, with no leading zero except for index 0. |
| `Values.DecimalInjective` | src/lofunc.js:80-81 | Different indices have different property names. |
| `Values.SameProperty` | src/lofunc.js:80-82 | Two keys in the model's form name the same JavaScript property exactly when they are equal, so `"2"` and `2` are one key and `Key` equality is property-name equality. |
| `Multiply.Mult` | src/lofunc.js:107-109 | `mult(...fs)` calls the i-th function with the i-th argument alone and packs the results into a Tuple. |
| `Multiply.MultCall` | src/lofunc.js:107-109 | `mult(f1..fn)(x1..xk)` is a Tuple of exactly n elements. The i-th element is `fi(xi)`, or `fi(undefined)` when `xi` is missing. |
| `Multiply.MultIgnoresExtraArgs` | src/lofunc.js:107-109 | Arguments beyond the number of functions do not change the result. |
| `Multiply.ComposeMult` | src/lofunc.js:93-108 | `compose(h, mult(...fs))(...xs)` passes the results of `mult` to `h` as separate arguments. |
| `Collections.MapSeq` | src/lofunc.js:118-120 | Mapping keeps the length. The i-th result is `cb(arr[i])`. |
| `Collections.FilterSeq` | src/lofunc.js:128-130 | Filtering returns only elements of the input whose callback result is truthy, and every passing element of the input appears in the result. |
| `Collections.FilterCounts` | src/lofunc.js:128-130 | Each passing value occurs in the result exactly as often as in the input, and every other value occurs zero times. |
| `Collections.Map` | src/lofunc.js:118-120 | `_.map(cb)` maps `cb` over lodash's collection view of its first argument and returns a new array. |
| `Collections.Filter` | src/lofunc.js:128-130 | `_.filter(cb)` filters lodash's collection view of its first argument by truthiness of `cb` and returns a new array. |
| `Collections.MapCall` | src/lofunc.js:118-120 | `_.map(cb)(arr)` is a new array of the same length whose i-th element is `cb(arr[i])`. |
| `Collections.FilterCall` | src/lofunc.js:128-130 | `_.filter(cb)(arr)` is an array whose elements all pass `cb`. Each passing value occurs as often as in `arr`, and every other value does not occur. |
| `Collections.MapString` | src/lofunc.js:118-120 | `_.map(cb)(str)` is an array as long as the string whose i-th element is `cb` of the i-th character, as a one-character string. |
| `Collections.MapTuple` | src/lofunc.js:118-120 | `_.map(cb)` on a Tuple calls `cb` once, on the array of its elements (its one enumerable property). |
| `Collections.MapPrimitive` | src/lofunc.js:118-120 | `_.map(cb)` on `undefined`, `null`, a boolean, a number or no argument gives an empty array. |
| `Collections.FilterTuple` | src/lofunc.js:128-130 | `_.filter(cb)` on a Tuple gives `[elements]` when `cb` accepts the elements array, and `[]` otherwise. |
| `Collections.FilterPrimitive` | src/lofunc.js:128-130 | `_.filter(cb)` on `undefined`, `null`, a boolean, a number or no argument gives an empty array. |
| `Collections.MapAppend` | src/lofunc.js:118-120 | Mapping distributes over concatenation, so order is preserved. |
| `Collections.FilterAppend` | src/lofunc.js:128-130 | Filtering distributes over concatenation, so the kept elements keep their relative order. |
| `Collections.FilterSingleton` | src/lofunc.js:128-130 | A single element is kept exactly when its callback result is truthy. |
| `Collections.FilterKeepsAll` | src/lofunc.js:128-130 | When every element passes, filtering returns the input. |
| `Collections.FilterIdempotent` | src/lofunc.js:128-130 | Filtering twice with the same callback equals filtering once. |
| `ObjectMap.Rewrite` | src/lofunc.js:81-83 | A visited key becomes `m[key](value)` when `m` holds a function at that key. Otherwise it keeps its value. |
| `ObjectMap.JsObject.Valid` | src/lofunc.js:80 | An object lists each of its own keys once, in iteration order, each in the model's canonical form, and exactly the keys that hold properties. |
| `ObjectMap.JsObject.constructor` | src/lofunc.js:79 | Builds a valid object from distinct canonical keys and their values, in order. |
| `ObjectMap.Transformed` | src/lofunc.js:78-88 | `object(m)` keeps exactly the object's keys. A key with a function in `m` becomes `m[key](old value)`. Every other key keeps its value. |
| `ObjectMap.TransformedSeq` | src/lofunc.js:78-88 | The same for arrays: index `i` is rewritten by `m[i]` when `m` holds a function there. |
| `ObjectMap.TransformObject` | src/lofunc.js:79-86 | The object is updated in place and returned. Its key list is unchanged and its properties become `Transformed(m, old properties)`. The mapping's keys are canonical, as every JavaScript property name is. |
| `ObjectMap.TransformArray` | src/lofunc.js:79-86 | The array is updated in place and returned. Its elements become `TransformedSeq(m, old elements)`. The mapping's keys are canonical. |
| `ObjectMap.TransformUnmatched` | src/lofunc.js:81-83 | An object with no key that has a function in `m` comes back unchanged. Keys that are only in `m` add nothing. |
| `ObjectMap.TransformOnlyVisitsOwnKeys` | src/lofunc.js:80-81 | Entries of `m` for keys the object lacks are never used. |
| `ObjectMap.IndexMap` | src/lofunc.js:80 | Definition: an array viewed as an object keyed by its indices. `ArrayAsObject` proves that rewriting through this view agrees with rewriting the array. |
| `ObjectMap.ArrayAsObject` | src/lofunc.js:80-82 | Array indices work as keys: rewriting an array agrees with rewriting its index-keyed object. |
| `Scenarios.ComposeBasic` | test/compose.js:5-10 | `compose(x => x + 1, x => 2 * x)(n, ...rest) == 2n + 1`, whatever index and array `Array.prototype.map` passes after `n`. |
| `Scenarios.ComposeMultiVariable` | test/compose.js:13-20 | `compose((x, y) => x * y, (x, y) => new Tuple(x + 1, y + 1))(5, 6) == 42`. |
| `Scenarios.ComposeEmptyScenario` | test/compose.js:22-26 | `compose()` as a map callback returns each of `5, 'hello', -12, null, undefined` unchanged, with the index and array passed beside it. |
| `Scenarios.ChainBasic` | test/compose.js:29-36 | `chain(x => x + 1, x => 2 * x)(n, ...rest) == 2n + 2`. |
| `Scenarios.SpreadScenario` | test/spread.js:5-11 | `spread(arr => arr.reduce((a, b) => a + b))` gives `6` on `(1, 2, 3)` and `'abc'` on `('a', 'b', 'c')`. |
| `Scenarios.UnspreadScenario` | test/spread.js:14-20 | `unspread((a, b, c) => a + b + c)` gives `6` on `[1, 2, 3]` and `'abc'` on `['a', 'b', 'c']`. |
| `Scenarios.MultScenario` | test/mult.js:5-15 | `mult(x => x + 1, y => y - 1)` on `(1, 1)` hands `2` and `0` to the next stage. |
| `Scenarios.ObjectBasic` | test/object.js:5-20 | `object({a: x => x + 1, b: x => 2 * x})({a: 15, b: 11})` is `{a: 16, b: 22}`. |
| `Scenarios.ObjectDoesNotContainKey` | test/object.js:22-32 | `object({b: x => x + 1})({a: 1})` is `{a: 1}`. |
| `Scenarios.ArrayMapping` | test/object.js:70-79 | An array of functions as the mapping rewrites `[1, 2, 3]` to `[2, 4, 6]`. |
| `Scenarios.ArraysAndObjects` | test/object.js:81-88 | `object({2: x => x + 7})([1, 4, -7])` is `[1, 4, 0]`. |

## Left out

- Exceptions thrown by user-supplied functions are not modelled: stages are
  total functions. The TypeError that `unspread` raises on a non-iterable
  argument is modelled, as a `None` result.
- JavaScript numbers are modelled as unbounded integers. Floating point
  and NaN are not modelled.
- Scenarios.SpreadScenario: the sample callbacks model `+` only on two
  numbers or on two strings. Mixed operands (`1 + 'a'`) give `undefined`
  there instead of JavaScript's string coercion, and `reduce` on an empty
  array gives `undefined` instead of throwing a TypeError. The tests use
  neither case.
- Objects and functions cannot appear as values inside a pipeline. The
  "Lodash hooks" test (test/object.js:34-68) runs `object` on objects nested
  in an array, which relies on reference semantics. The model has no nested
  mutable objects, so that test is not restated.
- `object`'s key lookup follows the prototype chain (`key in funcObj`).
  Its callable check is `instanceof Function`, and the Tuple check is
  `instanceof F.Tuple`. The model represents the mapping as
  `map<Key, Option<Fn>>`: `None` means the key holds a value that is not
  callable. The Tuple check becomes the datatype test `Tuple?`.
  Inherited members such as `toString` are not modelled.
- The string key `"2"` and the index `2` are the same JavaScript key. The
  model writes both as `Index(2)`: `CanonicalKey` forbids a `Name` that
  spells an index, and `SameProperty` proves that this makes `Key`
  equality property-name equality. Indices above 2^32 - 2, which
  JavaScript does not treat as array indices, are not distinguished.
- Lodash callbacks also receive the index and the collection. The model
  passes only the element, as the source's callbacks use it. `forEach`'s
  early exit when a callback returns `false` is left out, because the
  callback in `object` never returns `false`.
- Lodash's `map` and `filter` on plain objects other than a Tuple (values
  in key order) are not modelled. Array-like objects with a `length`
  property are not modelled either.
- Values.Collection: a string is visited one Dafny character at a time.
  Lodash visits a string one UTF-16 code unit at a time, so for a character
  outside the Basic Multilingual Plane it calls the callback once per
  surrogate half, and the result is longer than the model's. Spread syntax
  (`SpreadArgs`) does go by whole characters.
- ObjectMap.TransformObject: visits the object's own keys. Lodash's
  `forEach` treats an object whose `length` property is a valid array
  length as array-like, and visits indices 0 to length-1 instead. Such
  objects are not modelled: on `{length: 0, a: 5}` the model rewrites `a`,
  while lodash leaves it.
- The deep-copying, non-mutating form of `object` is not modelled. This
  version of the library has only the mutating form.
- In `object`, each key's new value depends only on its old value. So the
  visiting order of `forEach` does not affect the result. The model visits
  keys in the object's own key order, as `forEach` does.
