/** The collector of explicit communities: while the nodes are parsed it gathers, for each
    explicit-community key, the distinct values met in first-seen order (only when no
    dimension strategy exists yet), and counts per implicit community how many users have
    each value of each key. */
module NodeExplicitComms {
  import opened Wrappers
  import opened AssocMaps
  import opened UserRecords

  /** The message of the TypeError thrown when a node's implicit community does not index
      the community list, so that `communitiesData[group].explicitCommunity` reads a field
      of undefined. */
  const NoCommunityError: string := "Cannot read properties of undefined (reading 'explicitCommunity')"

  /** The values collected for one explicit-community key. */
  datatype ExplicitData = ExplicitData(key: string, values: seq<string>)

  /** Per key of a community, the number of users with each value. */
  type ExplicitCounts = seq<(string, seq<(string, int)>)>

  /** The values collected for `key`: those of the first entry with that key. */
  function ValuesOf(data: seq<ExplicitData>, key: string): Option<seq<string>>
  {
    if data == [] then None
    else if data[0].key == key then Some(data[0].values)
    else ValuesOf(data[1..], key)
  }

  /** The keys of the collected entries, in order. */
  function DataKeys(data: seq<ExplicitData>): (r: seq<string>)
    ensures |r| == |data|
    ensures forall i :: 0 <= i < |data| ==> r[i] == data[i].key
  {
    if data == [] then [] else [data[0].key] + DataKeys(data[1..])
  }

  /** No key is collected twice and no value twice under a key. */
  predicate WellCollected(data: seq<ExplicitData>)
  {
    (forall i, j :: 0 <= i < j < |data| ==> data[i].key != data[j].key) &&
    (forall i :: 0 <= i < |data| ==> forall a, b :: 0 <= a < b < |data[i].values| ==> data[i].values[a] != data[i].values[b])
  }

  /** The collection after `updateExplicitData` sees `value` under `key`: a new key gets a
      new entry at the end, a known key gets the value appended unless it already has it. */
  function AddValue(data: seq<ExplicitData>, key: string, value: string): seq<ExplicitData>
  {
    if data == [] then [ExplicitData(key, [value])]
    else if data[0].key == key then
      [if value in data[0].values then data[0] else data[0].(values := data[0].values + [value])] + data[1..]
    else [data[0]] + AddValue(data[1..], key, value)
  }

  /** A key is collected exactly when it is among the keys. */
  lemma {:induction false} ValuesOfIsKey(data: seq<ExplicitData>, key: string)
    ensures ValuesOf(data, key).Some? <==> key in DataKeys(data)
    ensures ValuesOf(data, key).Some? ==> exists i :: 0 <= i < |data| && data[i] == ExplicitData(key, ValuesOf(data, key).value)
  {
    if data != [] {
      assert DataKeys(data) == [data[0].key] + DataKeys(data[1..]);
      ValuesOfIsKey(data[1..], key);
      if data[0].key != key && ValuesOf(data, key).Some? {
        var i :| 0 <= i < |data[1..]| && data[1..][i] == ExplicitData(key, ValuesOf(data, key).value);
        assert data[i + 1] == data[1..][i];
      }
    }
  }

  /** `updateExplicitData`: the key ends with the value among its values, appended at the
      end when new; other keys keep their values; the key list grows only by a new key. */
  lemma {:induction false} AddValueFacts(data: seq<ExplicitData>, key: string, value: string)
    ensures ValuesOf(AddValue(data, key, value), key) ==
      Some(match ValuesOf(data, key)
           case None => [value]
           case Some(vs) => if value in vs then vs else vs + [value])
    ensures forall k :: k != key ==> ValuesOf(AddValue(data, key, value), k) == ValuesOf(data, k)
    ensures DataKeys(AddValue(data, key, value)) ==
      if ValuesOf(data, key).Some? then DataKeys(data) else DataKeys(data) + [key]
  {
    if data != [] {
      var r := AddValue(data, key, value);
      assert r[1..] == (if data[0].key == key then data[1..] else AddValue(data[1..], key, value));
      assert DataKeys(r) == [r[0].key] + DataKeys(r[1..]);
      assert DataKeys(data) == [data[0].key] + DataKeys(data[1..]);
      if data[0].key != key {
        AddValueFacts(data[1..], key, value);
      }
    }
  }

  /** Entry by entry, `updateExplicitData` either keeps an entry, or appends the new value
      to the values of an entry that lacked it, or adds a new last entry. */
  lemma {:induction false} AddValueShape(data: seq<ExplicitData>, key: string, value: string)
    ensures var r := AddValue(data, key, value);
      |data| <= |r| <= |data| + 1 &&
      (|r| == |data| + 1 ==> r[|data|] == ExplicitData(key, [value])) &&
      forall i :: 0 <= i < |data| ==> (r[i] == data[i] ||
        (value !in data[i].values && r[i] == data[i].(values := data[i].values + [value])))
  {
    if data != [] && data[0].key != key {
      AddValueShape(data[1..], key, value);
      var r := AddValue(data, key, value);
      assert forall i :: 1 <= i < |r| ==> r[i] == AddValue(data[1..], key, value)[i - 1];
    }
  }

  /** `updateExplicitData` keeps the collected keys distinct. */
  lemma AddValueKeepsKeysDistinct(data: seq<ExplicitData>, key: string, value: string)
    requires forall i, j :: 0 <= i < j < |data| ==> data[i].key != data[j].key
    ensures var r := AddValue(data, key, value);
      forall i, j :: 0 <= i < j < |r| ==> r[i].key != r[j].key
  {
    AddValueFacts(data, key, value);
    ValuesOfIsKey(data, key);
    var kd, kr := DataKeys(data), DataKeys(AddValue(data, key, value));
    assert forall i, j :: 0 <= i < j < |kd| ==> kd[i] != kd[j];
    assert forall i, j :: 0 <= i < j < |kr| ==> kr[i] != kr[j];
  }

  /** `updateExplicitData` keeps keys and values free of repeats. */
  lemma AddValueKeepsWellCollected(data: seq<ExplicitData>, key: string, value: string)
    requires WellCollected(data)
    ensures WellCollected(AddValue(data, key, value))
  {
    AddValueKeepsKeysDistinct(data, key, value);
    AddValueShape(data, key, value);
    var r := AddValue(data, key, value);
    forall i | 0 <= i < |r|
      ensures forall a, b :: 0 <= a < b < |r[i].values| ==> r[i].values[a] != r[i].values[b]
    {
      if i < |data| && r[i] != data[i] {
        assert forall a :: 0 <= a < |data[i].values| ==> r[i].values[a] == data[i].values[a];
      }
    }
  }

  /** With distinct keys, the entry at position `i` is the one its key finds. */
  lemma {:induction false} ValuesOfFound(data: seq<ExplicitData>, i: nat)
    requires i < |data|
    requires forall a, b :: 0 <= a < b < |data| ==> data[a].key != data[b].key
    ensures ValuesOf(data, data[i].key) == Some(data[i].values)
  {
    if i > 0 {
      ValuesOfFound(data[1..], i - 1);
    }
  }

  /** The number of users of community `group` counted with `value` under `key`. */
  function Count(cd: seq<Option<ExplicitCounts>>, group: nat, key: string, value: string): int
  {
    if group < |cd| && cd[group].Some? then
      match Get(cd[group].value, key)
      case None => 0
      case Some(counts) => (match Get(counts, value) case None => 0 case Some(n) => n)
    else 0
  }

  /** The communities after `updateCommunitiesData` counts one user of `group` with `value`
      under `key`: the missing object, the missing per-key map and the missing count all
      start from nothing, and the count goes up by one. */
  function Counted(cd: seq<Option<ExplicitCounts>>, group: nat, key: string, value: string): seq<Option<ExplicitCounts>>
    requires group < |cd|
  {
    cd[group := Some(CountedIn(cd[group], key, value))]
  }

  /** The counts of one community after one more `value` under `key`: a missing object, a
      missing per-key map and a missing count all start from nothing. */
  function CountedIn(c: Option<ExplicitCounts>, key: string, value: string): ExplicitCounts
  {
    match c
    case None => Set([], key, Set([], value, 1))
    case Some(ec) =>
      match Get(ec, key)
      case None => Set(ec, key, Set([], value, 1))
      case Some(counts) =>
        match Get(counts, value)
        case None => Set(ec, key, Set(counts, value, 1))
        case Some(n) => Set(ec, key, Set(counts, value, n + 1))
  }

  /** `updateCommunitiesData` adds one to exactly one count and keeps every other. */
  lemma CountedIncrementsOne(cd: seq<Option<ExplicitCounts>>, group: nat, key: string, value: string,
                             g: nat, k: string, v: string)
    requires group < |cd|
    ensures |Counted(cd, group, key, value)| == |cd|
    ensures Count(Counted(cd, group, key, value), g, k, v) ==
      Count(cd, g, k, v) + (if g == group && k == key && v == value then 1 else 0)
  {
  }

  /** The collection after the keys `ec[..n]` were seen, each with its value. */
  function CollectedAll(data: seq<ExplicitData>, ec: seq<(string, string)>, n: nat): seq<ExplicitData>
    requires n <= |ec|
  {
    if n == 0 then data
    else
      var key := ec[n - 1].0;
      GetIsKey(ec, key);
      AddValue(CollectedAll(data, ec, n - 1), key, Get(ec, key).value)
  }

  /** The communities after the keys `ec[..n]` of a user of `group` were counted. */
  function CountedAll(cd: seq<Option<ExplicitCounts>>, group: nat, ec: seq<(string, string)>, n: nat): (r: seq<Option<ExplicitCounts>>)
    requires group < |cd| && n <= |ec|
    ensures |r| == |cd|
  {
    if n == 0 then cd
    else
      var key := ec[n - 1].0;
      GetIsKey(ec, key);
      CountedIncrementsOne(CountedAll(cd, group, ec, n - 1), group, key, Get(ec, key).value, 0, "", "");
      Counted(CountedAll(cd, group, ec, n - 1), group, key, Get(ec, key).value)
  }

  /** `value` is among the values collected for `key`. */
  predicate Holds(data: seq<ExplicitData>, key: string, value: string)
  {
    ValuesOf(data, key).Some? && value in ValuesOf(data, key).value
  }

  /** `updateExplicitData` loses no value collected before. */
  lemma AddValueGrows(data: seq<ExplicitData>, key: string, value: string, k: string, v: string)
    requires Holds(data, k, v)
    ensures Holds(AddValue(data, key, value), k, v)
  {
    AddValueFacts(data, key, value);
  }

  /** Parsing more key-value pairs loses no value collected before. */
  lemma {:induction false} CollectedAllKeeps(data: seq<ExplicitData>, ec: seq<(string, string)>, n: nat,
                                             k: string, v: string)
    requires n <= |ec| && Holds(data, k, v)
    ensures Holds(CollectedAll(data, ec, n), k, v)
  {
    if n > 0 {
      var key := ec[n - 1].0;
      GetIsKey(ec, key);
      CollectedAllKeeps(data, ec, n - 1, k, v);
      AddValueGrows(CollectedAll(data, ec, n - 1), key, Get(ec, key).value, k, v);
    }
  }

  /** Parsing the first `n` key-value pairs collects each of them. */
  lemma {:induction false} CollectedAllHolds(data: seq<ExplicitData>, ec: seq<(string, string)>, n: nat, j: nat)
    requires j < n <= |ec| && UniqueKeys(ec)
    ensures Holds(CollectedAll(data, ec, n), ec[j].0, ec[j].1)
  {
    var key := ec[n - 1].0;
    GetIsKey(ec, key);
    var prev := CollectedAll(data, ec, n - 1);
    if j == n - 1 {
      GetOfUniqueKey(ec, n - 1);
      AddValueFacts(prev, key, ec[n - 1].1);
    } else {
      CollectedAllHolds(data, ec, n - 1, j);
      AddValueGrows(prev, key, Get(ec, key).value, ec[j].0, ec[j].1);
    }
  }

  /** After a user is parsed, each of its key-value pairs is collected, and what was
      collected before is still there. */
  lemma CollectedAllContains(data: seq<ExplicitData>, ec: seq<(string, string)>, n: nat)
    requires n <= |ec| && UniqueKeys(ec)
    ensures forall j :: 0 <= j < n ==> Holds(CollectedAll(data, ec, n), ec[j].0, ec[j].1)
    ensures forall k, v :: Holds(data, k, v) ==> Holds(CollectedAll(data, ec, n), k, v)
  {
    forall j | 0 <= j < n
      ensures Holds(CollectedAll(data, ec, n), ec[j].0, ec[j].1)
    {
      CollectedAllHolds(data, ec, n, j);
    }
    forall k, v | Holds(data, k, v)
      ensures Holds(CollectedAll(data, ec, n), k, v)
    {
      CollectedAllKeeps(data, ec, n, k, v);
    }
  }

  /** Parsing a user of `group` (whose keys, as an object's, are distinct) adds one to the
      count of each of its key-value pairs in that community and changes no other count. */
  lemma {:induction false} CountedAllCountsEachPairOnce(cd: seq<Option<ExplicitCounts>>, group: nat,
                                                        ec: seq<(string, string)>, n: nat, g: nat, k: string, v: string)
    requires group < |cd| && n <= |ec| && UniqueKeys(ec)
    ensures Count(CountedAll(cd, group, ec, n), g, k, v) ==
      Count(cd, g, k, v) + (if g == group && k in Keys(ec[..n]) && Get(ec, k) == Some(v) then 1 else 0)
  {
    if n > 0 {
      var key := ec[n - 1].0;
      GetIsKey(ec, key);
      var prev := CountedAll(cd, group, ec, n - 1);
      var value := Get(ec, key).value;
      assert CountedAll(cd, group, ec, n) == Counted(prev, group, key, value);
      CountedAllCountsEachPairOnce(cd, group, ec, n - 1, g, k, v);
      CountedIncrementsOne(prev, group, key, value, g, k, v);
      KeysStep(ec, n);
    }
  }

  /** The keys of a longer prefix of an object's entries add the next key, which is new. */
  lemma KeysStep(ec: seq<(string, string)>, n: nat)
    requires 0 < n <= |ec| && UniqueKeys(ec)
    ensures Keys(ec[..n]) == Keys(ec[..n - 1]) + [ec[n - 1].0]
    ensures ec[n - 1].0 !in Keys(ec[..n - 1])
  {
    KeysPrefix(ec, n);
    KeysPrefix(ec, n - 1);
    var ks := Keys(ec);
    assert ks[..n] == ks[..n - 1] + [ks[n - 1]];
    assert forall j :: 0 <= j < n - 1 ==> ks[j] != ks[n - 1];
  }

  /** One step of the search `find` makes: an entry with another key is kept as it is. */
  lemma AddValueSkip(data: seq<ExplicitData>, i: nat, key: string, value: string)
    requires i < |data| && data[i].key != key
    ensures data[..i] + AddValue(data[i..], key, value) == data[..i + 1] + AddValue(data[i + 1..], key, value)
  {
    assert data[i..][1..] == data[i + 1..];
    assert data[..i + 1] == data[..i] + [data[i]];
  }

  /** The entry `find` stops at takes the value unless it has it already. */
  lemma AddValueFound(data: seq<ExplicitData>, i: nat, key: string, value: string)
    requires i < |data| && data[i].key == key
    ensures data[..i] + AddValue(data[i..], key, value) ==
      if value in data[i].values then data else data[i := data[i].(values := data[i].values + [value])]
  {
    assert data[i..][1..] == data[i + 1..];
    assert data == data[..i] + [data[i]] + data[i + 1..];
  }

  class NodeExplicitComms {
    var explicitData: seq<ExplicitData>
    /** The `explicitCommunity` field of each community, `None` while undefined. */
    var communitiesData: seq<Option<ExplicitCounts>>

    constructor (communitiesData: seq<Option<ExplicitCounts>>)
      ensures explicitData == [] && this.communitiesData == communitiesData
    {
      explicitData := [];
      this.communitiesData := communitiesData;
    }

    /** `parseExplicitCommunity(node, dimStrat)`, with `dimStrat` reduced to whether it is
        defined. A node whose implicit community does not index `communitiesData` throws a
        TypeError at its first key, once that key has been collected. */
    method ParseExplicitCommunity(node: UserData, dimStratDefined: bool) returns (r: Result<()>)
      modifies this
      ensures var ec := node.explicitCommunity;
        r.Err? <==> node.implicitCommunity >= |old(communitiesData)| && |ec| > 0
      ensures r.Ok? ==> explicitData == if dimStratDefined then old(explicitData)
        else CollectedAll(old(explicitData), node.explicitCommunity, |node.explicitCommunity|)
      ensures r.Ok? ==> communitiesData == if node.implicitCommunity < |old(communitiesData)| then
        CountedAll(old(communitiesData), node.implicitCommunity, node.explicitCommunity, |node.explicitCommunity|)
        else old(communitiesData)
      ensures r.Err? ==> r.error == NoCommunityError && communitiesData == old(communitiesData)
      ensures r.Err? ==> explicitData == if dimStratDefined then old(explicitData)
        else CollectedAll(old(explicitData), node.explicitCommunity, 1)
    {
      var ec := node.explicitCommunity;
      for i := 0 to |ec|
        invariant i > 0 ==> node.implicitCommunity < |old(communitiesData)|
        invariant explicitData == if dimStratDefined then old(explicitData) else CollectedAll(old(explicitData), ec, i)
        invariant communitiesData == if node.implicitCommunity < |old(communitiesData)| then
          CountedAll(old(communitiesData), node.implicitCommunity, ec, i) else old(communitiesData)
      {
        var key := ec[i].0;
        GetIsKey(ec, key);
        if !dimStratDefined {
          UpdateExplicitData(key, node);
        }
        var counted := UpdateCommunitiesData(key, node);
        if counted.Err? {
          return counted;
        }
      }
      r := Ok(());
    }

    /** `updateExplicitData(key, node)` for a key the node has. */
    method UpdateExplicitData(key: string, node: UserData)
      requires Get(node.explicitCommunity, key).Some?
      modifies this
      ensures explicitData == AddValue(old(explicitData), key, Get(node.explicitCommunity, key).value)
      ensures communitiesData == old(communitiesData)
    {
      var value := Get(node.explicitCommunity, key).value;
      var data := explicitData;
      if |data| == 0 {
        explicitData := [ExplicitData(key, [value])];
      } else {
        var i := 0;
        while i < |data| && data[i].key != key
          invariant 0 <= i <= |data| && unchanged(this)
          invariant AddValue(data, key, value) == data[..i] + AddValue(data[i..], key, value)
        {
          AddValueSkip(data, i, key, value);
          i := i + 1;
        }
        if i < |data| {
          var keyValues := data[i];
          AddValueFound(data, i, key, value);
          if value !in keyValues.values {
            explicitData := data[i := keyValues.(values := keyValues.values + [value])];
          }
        } else {
          assert data[..i] == data;
          explicitData := data + [ExplicitData(key, [value])];
        }
      }
    }

    /** `updateCommunitiesData(key, node)` for a key the node has. */
    method UpdateCommunitiesData(key: string, node: UserData) returns (r: Result<()>)
      requires Get(node.explicitCommunity, key).Some?
      modifies this
      ensures r.Err? <==> node.implicitCommunity >= |old(communitiesData)|
      ensures r.Err? ==> r.error == NoCommunityError && communitiesData == old(communitiesData)
      ensures r.Ok? ==> communitiesData == Counted(old(communitiesData), node.implicitCommunity, key, Get(node.explicitCommunity, key).value)
      ensures explicitData == old(explicitData)
    {
      var group := node.implicitCommunity;
      var value := Get(node.explicitCommunity, key).value;
      if group >= |communitiesData| {
        return Err(NoCommunityError);
      }
      var updated := CountOne(communitiesData[group], key, value);
      communitiesData := communitiesData[group := Some(updated)];
      r := Ok(());
    }

    /** The branches of `updateCommunitiesData` for one community. */
    static method CountOne(c: Option<ExplicitCounts>, key: string, value: string) returns (updated: ExplicitCounts)
      ensures updated == CountedIn(c, key, value)
    {
      if c.None? {
        updated := Set([], key, Set([], value, 1));
      } else if Get(c.value, key).None? {
        updated := Set(c.value, key, Set([], value, 1));
      } else {
        var counts := Get(c.value, key).value;
        var currentNumber := Get(counts, value);
        if currentNumber.None? {
          updated := Set(c.value, key, Set(counts, value, 1));
        } else {
          updated := Set(c.value, key, Set(counts, value, currentNumber.value + 1));
        }
      }
    }
  }
}
