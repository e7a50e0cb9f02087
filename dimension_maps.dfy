/** The part every node-dimension strategy shares: picking the attribute of its dimension,
    filling the map from attribute values to dimension values, and looking a user's value
    up in that map. */
module DimensionMaps {
  import opened Wrappers
  import opened AssocMaps

  /** `xs.filter(p)[0]`: the first element that satisfies `p`, or `undefined`. */
  function FirstWhere<A>(xs: seq<A>, p: A -> bool): (r: Option<A>)
    ensures r.Some? ==> p(r.value) && r.value in xs
    ensures r.None? <==> forall i :: 0 <= i < |xs| ==> !p(xs[i])
  {
    if xs == [] then None
    else if p(xs[0]) then Some(xs[0])
    else
      var r := FirstWhere(xs[1..], p);
      assert forall i :: 1 <= i < |xs| ==> xs[i] == xs[1..][i - 1];
      r
  }

  /** No element before the one `FirstWhere` picks satisfies `p`. */
  lemma {:induction false} FirstWhereIsFirst<A>(xs: seq<A>, p: A -> bool)
    requires FirstWhere(xs, p).Some?
    ensures exists k :: (0 <= k < |xs| && xs[k] == FirstWhere(xs, p).value &&
      forall j :: 0 <= j < k ==> !p(xs[j]))
  {
    if !p(xs[0]) {
      FirstWhereIsFirst(xs[1..], p);
      var k :| 0 <= k < |xs[1..]| && xs[1..][k] == FirstWhere(xs[1..], p).value &&
        forall j :: 0 <= j < k ==> !p(xs[1..][j]);
      assert xs[k + 1] == FirstWhere(xs, p).value;
      assert forall j :: 1 <= j < k + 1 ==> xs[j] == xs[1..][j - 1];
    } else {
      assert xs[0] == FirstWhere(xs, p).value;
    }
  }

  /** The map `fillMap` builds: `values[i]` is set to `g(i)` in index order. */
  function MapOf<T>(values: seq<string>, g: nat -> T): (r: seq<(string, T)>)
    ensures UniqueKeys(r)
  {
    if values == [] then []
    else
      var n := |values| - 1;
      var m := MapOf(values[..n], g);
      SetKeepsKeysUnique(m, values[n], g(n));
      Set(m, values[n], g(n))
  }

  /** `fillMap(values, getDimension)`: the indexed loop of `set`s. */
  method FillMap<T>(values: seq<string>, g: nat -> T) returns (m: seq<(string, T)>)
    ensures m == MapOf(values, g)
  {
    m := [];
    for i := 0 to |values|
      invariant m == MapOf(values[..i], g)
    {
      assert values[..i + 1][..i] == values[..i];
      m := Set(m, values[i], g(i));
    }
    assert values[..|values|] == values;
  }

  /** The filled map knows exactly the attribute values, and a value maps to the dimension
      value of its LAST index: a repeated value is overwritten by its later occurrence. */
  lemma {:induction false} MapOfGet<T>(values: seq<string>, g: nat -> T, v: string)
    ensures Get(MapOf(values, g), v).None? <==> v !in values
    ensures v in values ==> exists i :: (0 <= i < |values| && values[i] == v &&
      Get(MapOf(values, g), v) == Some(g(i)) && forall j :: i < j < |values| ==> values[j] != v)
  {
    if values != [] {
      var n := |values| - 1;
      var init := values[..n];
      MapOfGet(init, g, v);
      assert values == init + [values[n]];
      if v == values[n] {
        assert Get(MapOf(values, g), v) == Some(g(n));
      } else {
        assert Get(MapOf(values, g), v) == Get(MapOf(init, g), v);
        assert v in values <==> v in init;
        if v in init {
          var i :| 0 <= i < |init| && init[i] == v && Get(MapOf(init, g), v) == Some(g(i)) &&
            forall j :: i < j < |init| ==> init[j] != v;
          assert values[i] == v;
        }
      }
    }
  }

  /** `dimensionMap.get(user.explicit_community[key])`: `undefined` when the user has no
      value for the key or the value has no entry. */
  function MappedValue<T>(dimensionMap: seq<(string, T)>, explicitCommunity: seq<(string, string)>,
                          key: string): Option<T>
  {
    match Get(explicitCommunity, key)
    case None => None
    case Some(value) => Get(dimensionMap, value)
  }

  /** Through a filled map, a user's value for the key gives the dimension value of its
      last index among the attribute values, and nothing when it is not one of them. */
  lemma MappedValueOfFilledMap<T>(values: seq<string>, g: nat -> T, explicitCommunity: seq<(string, string)>,
                                  key: string)
    ensures var own := Get(explicitCommunity, key);
      MappedValue(MapOf(values, g), explicitCommunity, key).Some? <==> own.Some? && own.value in values
    ensures var own := Get(explicitCommunity, key);
      own.Some? && own.value in values ==> exists i :: (0 <= i < |values| && values[i] == own.value &&
        MappedValue(MapOf(values, g), explicitCommunity, key) == Some(g(i)))
  {
    var own := Get(explicitCommunity, key);
    if own.Some? {
      MapOfGet(values, g, own.value);
    }
  }
}
