/** `F.object`: an in-place, key-wise rewrite of an object or array by a
    mapping from keys to functions. */
module ObjectMap {
  import opened Values

  /** The mapping handed to `object`: a key present with a callable value is
      `Some(f)`, a key present with any other value is `None`, an absent key
      is not in the map. */
  type Mapping = map<Key, Option<Fn>>

  /** Every key of a mapping is written the model's way, as the keys of a
      JavaScript object are always property names. */
  predicate CanonicalMapping(m: Mapping)
  {
    forall k :: k in m ==> CanonicalKey(k)
  }

  /** The value the key `k` holds after `object(m)` has visited it with old
      value `v`: `m[k](v)` when `m` holds a function at `k`, else `v`. */
  function Rewrite(m: Mapping, k: Key, v: Value): Value
  {
    if k in m && m[k].Some? then m[k].value([v]) else v
  }

  /** The properties of an object after `object(m)`: the same keys, each
      rewritten by the function `m` holds for it, all others unchanged. */
  function Transformed(m: Mapping, props: map<Key, Value>): (r: map<Key, Value>)
    ensures r.Keys == props.Keys
    ensures forall k :: k in props && k in m && m[k].Some? ==> r[k] == m[k].value([props[k]])
    ensures forall k :: k in props && !(k in m && m[k].Some?) ==> r[k] == props[k]
  {
    map k | k in props :: Rewrite(m, k, props[k])
  }

  /** The elements of an array after `object(m)`: the element at index `i`
      is rewritten by the function `m` holds for `Index(i)`. */
  function TransformedSeq(m: Mapping, s: seq<Value>): (r: seq<Value>)
    ensures |r| == |s|
    ensures forall i: nat :: i < |s| && Index(i) in m && m[Index(i)].Some? ==> r[i] == m[Index(i)].value([s[i]])
    ensures forall i: nat :: i < |s| && !(Index(i) in m && m[Index(i)].Some?) ==> r[i] == s[i]
  {
    seq(|s|, i requires 0 <= i < |s| => Rewrite(m, Index(i), s[i]))
  }

  /** A plain JavaScript object: its own enumerable keys in iteration order
      and the value each holds. */
  class JsObject {
    var keys: seq<Key>
    var props: map<Key, Value>

    ghost predicate Valid()
      reads this
    {
      && (forall i, j :: 0 <= i < j < |keys| ==> keys[i] != keys[j])
      && (forall i :: 0 <= i < |keys| ==> CanonicalKey(keys[i]))
      && (forall k :: k in props <==> k in keys)
    }

    constructor (keys: seq<Key>, values: seq<Value>)
      requires |keys| == |values|
      requires forall i, j :: 0 <= i < j < |keys| ==> keys[i] != keys[j]
      requires forall i :: 0 <= i < |keys| ==> CanonicalKey(keys[i])
      ensures Valid()
      ensures this.keys == keys
      ensures forall i :: 0 <= i < |keys| ==> keys[i] in props && props[keys[i]] == values[i]
    {
      this.keys := keys;
      this.props := map i | 0 <= i < |keys| :: keys[i] := values[i];
      new;
      forall i | 0 <= i < |keys|
        ensures keys[i] in props && props[keys[i]] == values[i]
      {
        assert keys[i] in props;
        var j :| 0 <= j < |keys| && keys[j] == keys[i] && props[keys[i]] == values[j];
        assert i == j;
      }
    }
  }

  /** `object(m)(obj)` on an object: visits each own key of `obj` in order,
      overwrites it with `m[key](value)` when `m` holds a function at that
      key, and returns the same object. No key is added or removed. */
  method TransformObject(m: Mapping, obj: JsObject) returns (r: JsObject)
    requires CanonicalMapping(m) && obj.Valid()
    modifies obj
    ensures r == obj && obj.Valid()
    ensures obj.keys == old(obj.keys)
    ensures obj.props == Transformed(m, old(obj.props))
  {
    ghost var before := obj.props;
    var i := 0;
    while i < |obj.keys|
      invariant 0 <= i <= |obj.keys|
      invariant obj.keys == old(obj.keys)
      invariant obj.props.Keys == before.Keys
      invariant forall j :: 0 <= j < i ==> obj.props[obj.keys[j]] == Rewrite(m, obj.keys[j], before[obj.keys[j]])
      invariant forall j :: i <= j < |obj.keys| ==> obj.props[obj.keys[j]] == before[obj.keys[j]]
    {
      var key := obj.keys[i];
      var value := obj.props[key];
      if key in m && m[key].Some? {
        obj.props := obj.props[key := m[key].value([value])];
      }
      i := i + 1;
    }
    forall k | k in obj.props
      ensures obj.props[k] == Transformed(m, before)[k]
    {
      var j :| 0 <= j < |obj.keys| && obj.keys[j] == k;
    }
    r := obj;
  }

  /** `object(m)(arr)` on an array: visits every index in order, overwrites
      the element with `m[i](element)` when `m` holds a function at index
      `i`, and returns the same array. */
  method TransformArray(m: Mapping, a: array<Value>) returns (r: array<Value>)
    requires CanonicalMapping(m)
    modifies a
    ensures r == a
    ensures a[..] == TransformedSeq(m, old(a[..]))
  {
    var i := 0;
    while i < a.Length
      invariant 0 <= i <= a.Length
      invariant forall j :: 0 <= j < i ==> a[j] == Rewrite(m, Index(j), old(a[j]))
      invariant forall j :: i <= j < a.Length ==> a[j] == old(a[j])
    {
      var key := Index(i);
      if key in m && m[key].Some? {
        a[i] := m[key].value([a[i]]);
      }
      i := i + 1;
    }
    r := a;
  }

  /** An object whose keys have no callable entry in `m` comes back
      unchanged; in particular, keys only in `m` add nothing. */
  lemma TransformUnmatched(m: Mapping, props: map<Key, Value>)
    requires forall k :: k in props && k in m ==> m[k].None?
    ensures Transformed(m, props) == props
  {
  }

  /** Entries of `m` for keys the object does not have are never used:
      restricting `m` to the object's keys gives the same result. */
  lemma TransformOnlyVisitsOwnKeys(m: Mapping, props: map<Key, Value>)
    ensures Transformed(m, props) == Transformed(map k | k in m && k in props :: m[k], props)
  {
  }

  /** The array's elements, viewed as an object keyed by index. */
  function IndexMap(s: seq<Value>): map<Key, Value>
  {
    map i: nat | i < |s| :: Index(i) := s[i]
  }

  /** Array indices work as keys: rewriting an array agrees with rewriting
      the object that maps each index to its element. */
  lemma ArrayAsObject(m: Mapping, s: seq<Value>)
    ensures Transformed(m, IndexMap(s)) == IndexMap(TransformedSeq(m, s))
  {
    var lhs, rhs := Transformed(m, IndexMap(s)), IndexMap(TransformedSeq(m, s));
    forall k | k in lhs
      ensures lhs[k] == rhs[k]
    {
      assert IndexMap(s)[k] == s[k.i];
    }
  }
}
