/** The validators of `ValidateFiles.ts`: they check a parsed JSON file field by field,
    coerce fields to strings or numbers, fill defaults, rename and delete fields, drop
    self-loop edges and order community explanations. The source rewrites its argument
    in place and returns it; here each validator returns the rewritten value, or the
    message it throws. */
module ValidateFiles {
  import opened Wrappers
  import opened Strings
  import opened Json
  import opened Validation

  // The messages the validators throw.
  const APerspectiveOfThePerspectiveIDsFileIsUndefined := "A perspective of the perspective IDs file is undefined"
  const APerspectiveOfThePerspectiveIDsFileIsNotAnObject := "A perspective of the perspective IDs file is not an object"
  const APerspectiveIdOfThePerspectiveIDsFileIsUndefined := "A perspective Id of the perspective IDs file is undefined"
  const PerspectivesIdsAndNamesFileIsUndefined := "Perspectives Ids and names file is undefined"
  const PerspectivesIdsAndNamesFileIsNotAnObjectNorArray := "Perspectives Ids and names file is not an object nor array"
  const PerspectiveIDsFileIsNotValid := "Perspective IDs file is not valid: "
  const MedoidIDIsUndefined := "Medoid ID is undefined"
  const CommunityMedoidExplanationIsNotValid := "Community Medoid explanation is not valid: "
  const ToFixedIsNotAFunction := "arg.explanation_data.data[keys[i]].toFixed is not a function"
  const LabelTextIsUndefined := "Label text is undefined"
  const DataAttributeIsUndefined := "Data attribute is undefined"
  const DataAttributeIsNotAnObject := "Data attribute is not an object"
  const CommunityImplicitAttributesExplanationIsNotValid := "Community Implicit Attributes explanation is not valid: "
  const ExplanationTypeIsUndefined := "Explanation_type is undefined"
  const ExplanationDataIsUndefined := "Explanation_data is undefined"
  const ExplanationDataIsNotAnObjectOrAnArray := "Explanation_data is not an object or an array"
  const VisibleIsNotABoolean := "Visible is not a boolean"
  const CommunityExplanationIsNotValid := "Community explanation is not valid: "
  const IdIsUndefined := "Id is undefined"
  const NameOfTheCommunity := "Name of the community ("
  const IsUndefinedTail := ") is undefined"
  const ExplanationsOfTheCommunity := "Explanations of the community ("
  const AreUndefinedTail := ") are undefined"
  const AreNotAnObjectOrAnArrayTail := ") are not an object or an array"
  const UsersOfTheCommunity := "Users of the community ("
  const IsNotAnObjectTail := ") is not an object"
  const UsersLengthOfTheCommunity := "Users.length of the community ("
  const IsEqualTo0Tail := ") is equal to 0"
  const ArgExplanationsSortIsNotAFunction := "arg.explanations.sort is not a function"
  const CommunityDataIsNotValid := "Community data is not valid: "
  const CannotConvertUndefinedOrNullToObject := "Cannot convert undefined or null to object"
  const ArtworkIdOfAnInteractionIsUndefined := "Artwork_id of an interaction is undefined"
  const ErrorWhileTryingToParseExtractedEmotionsData := "Error while trying to parse extracted emotions data: "
  const InteractionDataIsNotValid := "Interaction data is not valid: "
  const LabelOfTheUser := "Label of the user ("
  const GroupOfTheUser := "Group of the user ("
  const IsNotANumberTail := ") is not a number"
  const CommunityInteractionOfTheUser := "Community interaction of the user ("
  const HasProblemsTail := ") has problems: "
  const NoCommunityInteractionOfTheUser := "No-community interaction of the user ("
  const ExplicitCommunityOfTheUser := "Explicit community of the user ("
  const IsNotAnObjectThereMayNotBeAnyExplicitCommunityValuesTail := ") is not an object. There may not be any explicit community values"
  const UserDataIsNotValid := "User data is not valid: "
  const ValueIsUndefined := "Value is undefined"
  const ValueIsNotANumber := "Value is not a number"
  const U1OfTheEdgeWithValue := "U1 of the edge with value ("
  const U2OfTheEdgeWithValue := "U2 of the edge with value ("
  const EdgeDataIsNotValid := "Edge data is not valid: "
  const YearIsUndefined := "Year is undefined"
  const ArtworkDataIsNotValid := "Artwork data is not valid: "
  const PerspectiveNetworkDataIsUndefined := "Perspective network data is undefined"
  const CommunitiesIsUndefined := "Communities is undefined"
  const CommunitiesIsNotAnObject := "Communities is not an object"
  const UsersIsUndefined := "Users is undefined"
  const UsersIsNotAnObject := "Users is not an object"
  const SimilarityIsUndefined := "Similarity is undefined"
  const SimilarityIsNotAnObject := "Similarity is not an object"
  const ArtworksIsUndefined := "Artworks is undefined"
  const ArtworksIsNotAnObject := "Artworks is not an object"
  const PerspectiveNetworkDataFileIsNotValid := "Perspective network data file is not valid: "
  const NameAndTypeDataIsNotValid := "Name and Type data is not valid: "
  const NameAndTypeDataIsUndefined := "Name and Type data is undefined"
  const AttNameIsUndefined := "Att name is undefined"
  const AttTypeIsUndefined := "Att type is undefined"
  const NameAndIdDataIsNotValid := "Name and id data is not valid: "
  const NameAndIDDataIsUndefined := "Name and ID data is undefined"
  const NameIsUndefined := "Name is undefined"
  const AlgorythmDataIsNotValid := "Algorythm data is not valid: "
  const SimFunctionIsUndefined := "Sim function is undefined"
  const OfTheSimFunctionTail := " of the sim function ("
  const InteractionSimilarityFunctionDataIsNotValid := "Interaction similarity function data is not valid: "
  const OnattributeOfTheSimFunction := "Onattribute of the sim function ("
  const ParenSpace := ") "
  const IsUndefined := "is undefined"
  const IsNotAnObject := "is not an object"
  const AttributeSimFunctionIsUndefined := "sim function is undefined"
  const AttributeSimFunctionIsNotAnObject := "sim function is not an object"
  const ArtworkAttributeDataDataIsNotValid := "artwork attribute data data is not valid: "
  const ArtworkAttributesAreUndefined := "Artwork attributes are undefined"
  const ArtworkAttributesAreNotAnObject := "Artwork attributes are not an object"
  const UserAttributesAreUndefined := "User attributes are undefined"
  const UserAttributesAreNotAnObject := "User attributes are not an object"
  const InteractionsSimilarityFunctionsAreUndefined := "Interactions Similarity Functions are undefined"
  const InteractionsSimilarityFunctionsAreNotAnObject := "Interactions Similarity Functions are not an object"
  const AlgorithmsAreUndefined := "Algorithms are undefined"
  const AlgorithmsAreNotAnObject := "Algorithms are not an object"
  const ArtworksAreUndefined := "Artworks are undefined"
  const ArtworksAreNotAnObject := "Artworks are not an object"
  const ConfigurationSeedIsUndefined := "Configuration Seed is undefined"
  const ConfigurationSeedFileIsNotValid := "Configuration Seed file is not valid: "

  /** `PerspectiveActiveState.unactive`. */
  const Unactive := JNum(0.0)

  /** The members of `ECommunityType` and of `EExplanationTypes`, in declaration order. */
  const CommunityTypes := ["implicit", "inexistent"]
  const ExplanationTypes := ["explicit_attributes", "medoid", "implicit_attributes"]

  // ================================================================ perspective ids file

  /** The body of the loop over the perspective ids file, for one entry. */
  function IdEntry(e: Json): (r: Result<Json>)
  {
    if e.JUndef? then Err(APerspectiveOfThePerspectiveIDsFileIsUndefined)
    else if !IsObject(e) then Err(APerspectiveOfThePerspectiveIDsFileIsNotAnObject)
    else
      var e1 :- RequireString(e, "id", APerspectiveIdOfThePerspectiveIDsFileIsUndefined);
      var e2 := if Field(e1, "name").JStr? then e1 else JObj(Put(e1.fields, "name", Field(e1, "id")));
      Ok(JObj(Put(e2.fields, "isActive", Unactive)))
  }

  function IdFileBody(arg: Json): Result<Json>
  {
    if arg.JUndef? then Err(PerspectivesIdsAndNamesFileIsUndefined)
    else if !IsObject(arg) then Err(PerspectivesIdsAndNamesFileIsNotAnObjectNorArray)
    else
      var len :- Prop(arg, "length");
      var arg1 :- if len.JUndef? || AtMostZero(len) then SetProp(arg, "length", JNum(0.0)) else Ok(arg);
      if arg1.JArr? then
        var items :- MapResult(arg1.items, IdEntry);
        Ok(JArr(items))
      else Ok(arg1)
  }

  /** `validatePerspectiveIDfile(arg)`. */
  function PerspectiveIdFile(arg: Json): Result<Json>
  {
    Wrap(PerspectiveIDsFileIsNotValid, IdFileBody(arg))
  }

  /** The loop of `validatePerspectiveIDfile`, entry by entry. */
  method ValidatePerspectiveIdFile(arg: Json) returns (r: Result<Json>)
    ensures r == PerspectiveIdFile(arg)
  {
    if !arg.JArr? {
      return PerspectiveIdFile(arg);
    }
    assert IdFileBody(arg) == (var items :- MapResult(arg.items, IdEntry); Ok(JArr(items)));
    var items := MapEach(arg.items, IdEntry);
    if items.Err? {
      return Err(PerspectiveIDsFileIsNotValid + items.error);
    }
    return Ok(JArr(items.value));
  }

  // ================================================================ perspective data file

  // ---------------------------------------------------------------- explanations

  function MedoidBody(arg: Json): Result<Json>
  {
    var data :- Prop(arg, "explanation_data");
    var d1 :- RequireString(data, "id", MedoidIDIsUndefined);
    SetProp(arg, "explanation_data", d1)
  }

  /** `isMedoidExplanationValid`. */
  function Medoid(arg: Json): Result<Json>
  {
    Wrap(CommunityMedoidExplanationIsNotValid, MedoidBody(arg))
  }

  /** `Number(x.toFixed(2))` for a number: to two decimals, halves away from zero. */
  function Round2(n: real): real
  {
    if n >= 0.0 then ((n * 100.0 + 0.5).Floor as real) / 100.0
    else -(((-n) * 100.0 + 0.5).Floor as real) / 100.0
  }

  /** One `{value, count}` record of an implicit-attributes explanation: the count is
      the value rounded to two decimals (`toFixed` exists on numbers only) and an empty
      key is shown as "(empty)". */
  function CountEntry(k: string, v: Json): (r: Result<Json>)
    ensures r.Ok? <==> v.JNum?
  {
    if v.JUndef? || v.JNull? then Err(TypeErrorMessage("toFixed"))
    else if !v.JNum? then Err(ToFixedIsNotAFunction)
    else Ok(JObj([("value", JStr(if k == "" then "(empty)" else k)), ("count", JNum(Round2(v.n)))]))
  }

  /** The `{value, count}` list built from `Object.keys(data)`, in key order. */
  function CountList(entries: seq<(string, Json)>): (r: Result<seq<Json>>)
    ensures r.Ok? <==> forall i :: 0 <= i < |entries| ==> entries[i].1.JNum?
    ensures r.Ok? ==> (|r.value| == |entries| &&
      forall i :: 0 <= i < |entries| ==> r.value[i] == CountEntry(entries[i].0, entries[i].1).value)
  {
    if entries == [] then Ok([])
    else
      var first :- CountEntry(entries[0].0, entries[0].1);
      var rest :- CountList(entries[1..]);
      Ok([first] + rest)
  }

  /** The key loop of `isImplicitAttributesExplanationValid`. */
  method BuildCountList(entries: seq<(string, Json)>) returns (r: Result<seq<Json>>)
    ensures r == CountList(entries)
  {
    var list: seq<Json> := [];
    var i := 0;
    while i < |entries|
      invariant 0 <= i <= |entries|
      invariant CountList(entries[..i]).Ok? && CountList(entries[..i]).value == list
    {
      var e := CountEntry(entries[i].0, entries[i].1);
      if e.Err? {
        assert forall j :: 0 <= j < i ==> entries[..i][j] == entries[j];
        CountListFirstError(entries, i);
        return Err(e.error);
      }
      CountListSnoc(entries, i);
      list := list + [e.value];
      i := i + 1;
    }
    assert entries[..i] == entries;
    return Ok(list);
  }

  lemma {:induction false} CountListSnoc(entries: seq<(string, Json)>, i: nat)
    requires i < |entries| && CountList(entries[..i]).Ok?
    requires CountEntry(entries[i].0, entries[i].1).Ok?
    ensures CountList(entries[..i + 1]) ==
      Ok(CountList(entries[..i]).value + [CountEntry(entries[i].0, entries[i].1).value])
  {
    var c := CountList(entries[..i + 1]);
    assert c.Ok?;
    assert c.value == CountList(entries[..i]).value + [CountEntry(entries[i].0, entries[i].1).value];
  }

  lemma {:induction false} CountListFirstError(entries: seq<(string, Json)>, i: nat)
    requires i < |entries| && forall j :: 0 <= j < i ==> entries[j].1.JNum?
    requires CountEntry(entries[i].0, entries[i].1).Err?
    ensures CountList(entries) == CountEntry(entries[i].0, entries[i].1).PropagateFailure()
  {
    if i > 0 {
      CountListFirstError(entries[1..], i - 1);
    }
  }

  function ImplicitAttributesHead(arg: Json): Result<(Json, Json)>
  {
    var data :- Prop(arg, "explanation_data");
    var d1 :- RequireString(data, "label", LabelTextIsUndefined);
    var inner :- RequireObject(d1, "data", DataAttributeIsUndefined, DataAttributeIsNotAnObject);
    Ok((d1, inner))
  }

  /** `explanation_data` after the key loop: `accordionMode` becomes false and `data`
      becomes the `{value, count}` list. */
  function ImplicitAttributesTail(arg: Json, d1: Json, list: seq<Json>): Result<Json>
    requires d1.JObj?
  {
    SetProp(arg, "explanation_data",
      JObj(Put(Put(d1.fields, "accordionMode", JBool(false)), "data", JArr(list))))
  }

  function ImplicitAttributesBody(arg: Json): Result<Json>
  {
    var (d1, inner) :- ImplicitAttributesHead(arg);
    if Field(d1, "accordionMode").JUndef? then
      var entries :- OwnEntries(inner);
      var list :- CountList(entries);
      ImplicitAttributesTail(arg, d1, list)
    else SetProp(arg, "explanation_data", d1)
  }

  /** `isImplicitAttributesExplanationValid`. */
  function ImplicitAttributes(arg: Json): Result<Json>
  {
    Wrap(CommunityImplicitAttributesExplanationIsNotValid, ImplicitAttributesBody(arg))
  }

  method ValidateImplicitAttributes(arg: Json) returns (r: Result<Json>)
    ensures r == ImplicitAttributes(arg)
  {
    var prefix := CommunityImplicitAttributesExplanationIsNotValid;
    var head := ImplicitAttributesHead(arg);
    if head.Err? {
      return Err(prefix + head.error);
    }
    var (d1, inner) := head.value;
    if !Field(d1, "accordionMode").JUndef? {
      return Wrap(prefix, SetProp(arg, "explanation_data", d1));
    }
    var entries := OwnEntries(inner);
    if entries.Err? {
      return Err(prefix + entries.error);
    }
    var list := BuildCountList(entries.value);
    if list.Err? {
      return Err(prefix + list.error);
    }
    return Wrap(prefix, ImplicitAttributesTail(arg, d1, list.value));
  }

  /** The checks of `isCommunityExplanationValid` before the type switch; gives the
      explanation with its type replaced by the enum value. */
  function ExplanationHead(arg: Json): (r: Result<Json>)
    ensures r.Ok? ==> r.value.JObj?
  {
    var a1 :- RequireString(arg, "explanation_type", ExplanationTypeIsUndefined);
    var t := EnumMember(ExplanationTypes, Field(a1, "explanation_type").s);
    var a2 := JObj(Put(a1.fields, "explanation_type", t));
    if t != JNum(0.0) then
      var data :- RequireObject(a2, "explanation_data", ExplanationDataIsUndefined,
        ExplanationDataIsNotAnObjectOrAnArray);
      var vis := Field(a2, "visible");
      if vis.JUndef? then Ok(JObj(Put(a2.fields, "visible", JBool(false))))
      else if !vis.JBool? then Err(VisibleIsNotABoolean)
      else Ok(a2)
    else Ok(a2)
  }

  /** An implicit-attributes explanation, validated and given `order` 1. */
  function ImplicitOrdered(a: Json): Result<Json>
  {
    var m :- ImplicitAttributes(a);
    SetProp(m, "order", JNum(1.0))
  }

  /** The type switch of `isCommunityExplanationValid`: the `order` an explanation is
      sorted by is 0 for explicit attributes, 1 for implicit attributes and 2 for a
      medoid. */
  function ExplanationTyped(a: Json): Result<Json>
    requires a.JObj?
  {
    var t := Field(a, "explanation_type");
    if t == JNum(0.0) then Ok(JObj(Put(a.fields, "order", JNum(0.0))))
    else if t == JNum(1.0) then
      var m :- Medoid(a);
      SetProp(m, "order", JNum(2.0))
    else if t == JNum(2.0) then ImplicitOrdered(a)
    else Ok(a)
  }

  function ExplanationBody(arg: Json): Result<Json>
  {
    var a :- ExplanationHead(arg);
    ExplanationTyped(a)
  }

  /** `isCommunityExplanationValid`. */
  function Explanation(arg: Json): Result<Json>
  {
    Wrap(CommunityExplanationIsNotValid, ExplanationBody(arg))
  }

  method ValidateImplicitOrdered(a: Json) returns (r: Result<Json>)
    ensures r == ImplicitOrdered(a)
  {
    var m := ValidateImplicitAttributes(a);
    if m.Err? {
      return Err(m.error);
    }
    r := SetProp(m.value, "order", JNum(1.0));
  }

  method ValidateExplanationTyped(a: Json) returns (r: Result<Json>)
    requires a.JObj?
    ensures r == ExplanationTyped(a)
  {
    if Field(a, "explanation_type") == JNum(2.0) {
      r := ValidateImplicitOrdered(a);
    } else {
      r := ExplanationTyped(a);
    }
  }

  method ValidateExplanation(arg: Json) returns (r: Result<Json>)
    ensures r == Explanation(arg)
  {
    var head := ExplanationHead(arg);
    if head.Err? {
      return Err(CommunityExplanationIsNotValid + head.error);
    }
    r := ValidateExplanationTyped(head.value);
    r := Wrap(CommunityExplanationIsNotValid, r);
  }

  // ---------------------------------------------------------------- explanation order

  /** `Number(e.order)`, `None` for NaN. */
  function OrderKey(e: Json): Option<real>
  {
    ToNum(Field(e, "order"))
  }

  /** The comparator `(v1, v2) => v1.order - v2.order` is positive: `a` goes after `b`.
      A NaN difference counts as 0, as in `Array.prototype.sort`. */
  predicate GoesAfter(a: Json, b: Json)
  {
    OrderKey(a).Some? && OrderKey(b).Some? && OrderKey(a).value > OrderKey(b).value
  }

  /** Inserts `x` before the first element that goes after it. */
  function InsertByOrder(x: Json, ys: seq<Json>): (r: seq<Json>)
    ensures multiset(r) == multiset(ys) + multiset{x}
    ensures |r| == |ys| + 1
  {
    if ys == [] then [x]
    else if GoesAfter(ys[0], x) then [x] + ys
    else
      assert ys == [ys[0]] + ys[1..];
      [ys[0]] + InsertByOrder(x, ys[1..])
  }

  /** `explanations.sort(...)`, as a stable insertion sort. */
  function SortByOrder(xs: seq<Json>): (r: seq<Json>)
    ensures multiset(r) == multiset(xs)
    ensures |r| == |xs|
  {
    if xs == [] then []
    else
      assert xs == xs[..|xs| - 1] + [xs[|xs| - 1]];
      InsertByOrder(xs[|xs| - 1], SortByOrder(xs[..|xs| - 1]))
  }

  predicate HasOrder(xs: seq<Json>)
  {
    forall i :: 0 <= i < |xs| ==> OrderKey(xs[i]).Some?
  }

  predicate OrderedByKey(xs: seq<Json>)
    requires HasOrder(xs)
  {
    forall i, j :: 0 <= i < j < |xs| ==> OrderKey(xs[i]).value <= OrderKey(xs[j]).value
  }

  /** Every element of `xs` has an order of at least `b`. */
  predicate AllFrom(xs: seq<Json>, b: real)
  {
    forall i :: 0 <= i < |xs| ==> OrderKey(xs[i]).Some? && OrderKey(xs[i]).value >= b
  }

  lemma {:induction false} InsertAllFrom(x: Json, ys: seq<Json>, b: real)
    requires AllFrom(ys, b) && OrderKey(x).Some? && OrderKey(x).value >= b
    ensures AllFrom(InsertByOrder(x, ys), b)
  {
    if ys != [] && !GoesAfter(ys[0], x) {
      assert AllFrom(ys[1..], b) by {
        forall i | 0 <= i < |ys[1..]| ensures OrderKey(ys[1..][i]).Some? && OrderKey(ys[1..][i]).value >= b {
          assert ys[1..][i] == ys[i + 1];
        }
      }
      InsertAllFrom(x, ys[1..], b);
    }
  }

  lemma {:induction false} InsertKeepsOrdered(x: Json, ys: seq<Json>)
    requires HasOrder(ys) && OrderKey(x).Some? && OrderedByKey(ys)
    ensures HasOrder(InsertByOrder(x, ys)) && OrderedByKey(InsertByOrder(x, ys))
  {
    if ys == [] {
    } else if GoesAfter(ys[0], x) {
      PrependOrdered(x, ys);
    } else {
      var tl := ys[1..];
      assert HasOrder(tl) && OrderedByKey(tl) by {
        assert forall i :: 0 <= i < |tl| ==> tl[i] == ys[i + 1];
      }
      assert AllFrom(tl, OrderKey(ys[0]).value) by {
        assert forall i :: 0 <= i < |tl| ==> tl[i] == ys[i + 1];
      }
      InsertKeepsOrdered(x, tl);
      InsertAllFrom(x, tl, OrderKey(ys[0]).value);
      assert InsertByOrder(x, ys) == [ys[0]] + InsertByOrder(x, tl);
      PrependOrdered(ys[0], InsertByOrder(x, tl));
    }
  }

  /** An element whose order is at most every order of an ordered list can go first. */
  lemma PrependOrdered(x: Json, ys: seq<Json>)
    requires HasOrder(ys) && OrderKey(x).Some? && OrderedByKey(ys)
    requires AllFrom(ys, OrderKey(x).value)
    ensures HasOrder([x] + ys) && OrderedByKey([x] + ys)
  {
    var r := [x] + ys;
    assert forall i :: 1 <= i < |r| ==> r[i] == ys[i - 1];
  }

  /** When every explanation has a numeric order, the sorted list is in ascending order,
      and it is always a permutation of the input. */
  lemma {:induction false} SortByOrderSorted(xs: seq<Json>)
    requires HasOrder(xs)
    ensures HasOrder(SortByOrder(xs)) && OrderedByKey(SortByOrder(xs))
    ensures multiset(SortByOrder(xs)) == multiset(xs)
  {
    if xs != [] {
      var init := xs[..|xs| - 1];
      assert HasOrder(init) by {
        forall i | 0 <= i < |init| ensures OrderKey(init[i]).Some? {
          assert init[i] == xs[i];
        }
      }
      SortByOrderSorted(init);
      InsertKeepsOrdered(xs[|xs| - 1], SortByOrder(init));
    }
  }

  // ---------------------------------------------------------------- communities

  /** The checks of `isCommunityDataValid` before the explanation loop; gives the
      community and its explanations value. */
  function CommunityHead(arg: Json): (r: Result<(Json, Json)>)
    ensures r.Ok? ==> r.value.0.JObj? && IsObject(r.value.1)
  {
    var a1 :- RequireString(arg, "id", IdIsUndefined);
    var id := Field(a1, "id").s;
    var a2 :- RequireString(a1, "name", NameOfTheCommunity + id + IsUndefinedTail);
    var expl :- RequireObject(a2, "explanations", ExplanationsOfTheCommunity + id + AreUndefinedTail,
      ExplanationsOfTheCommunity + id + AreNotAnObjectOrAnArrayTail);
    var users :- RequireObject(a2, "users", UsersOfTheCommunity + id + IsUndefinedTail,
      UsersOfTheCommunity + id + IsNotAnObjectTail);
    var ulen :- Prop(users, "length");
    if ulen == JNum(0.0) then Err(UsersLengthOfTheCommunity + id + IsEqualTo0Tail)
    else Ok((a2, expl))
  }

  /** The community after its explanations were validated: they are sorted (`sort`
      exists on arrays only) and the community type is resolved — a missing one is
      `inexistent`, one that names no member is `implicit`. */
  function CommunityTail(a: Json, expl: Json, validated: seq<Json>): Result<Json>
    requires a.JObj?
  {
    if !expl.JArr? then Err(ArgExplanationsSortIsNotAFunction)
    else Ok(CommunityTyped(JObj(Put(a.fields, "explanations", JArr(SortByOrder(validated))))))
  }

  /** The community with its type resolved: a present `community-type` becomes a string,
      and `type` is set. */
  function CommunityTyped(a3: Json): (r: Json)
    requires a3.JObj?
    ensures r.JObj?
  {
    var ct := Field(a3, "community-type");
    var a4 := if ct.JUndef? then a3 else JObj(Put(a3.fields, "community-type", AsString(ct)));
    JObj(Put(a4.fields, "type", CommunityTypeOf(ct)))
  }

  /** The `type` a community is given for its `community-type` value. */
  function CommunityTypeOf(ct: Json): Json
  {
    if ct.JUndef? then JNum(1.0)
    else
      var t := EnumMember(CommunityTypes, AsString(ct).s);
      if t.JUndef? then JNum(0.0) else t
  }

  function CommunityRest(a: Json, expl: Json): Result<Json>
    requires a.JObj?
  {
    var es :- Loopable(expl);
    var validated :- MapResult(es, Explanation);
    CommunityTail(a, expl, validated)
  }

  function CommunityBody(arg: Json): Result<Json>
  {
    var head :- CommunityHead(arg);
    CommunityRest(head.0, head.1)
  }

  /** `isCommunityDataValid`. */
  function Community(arg: Json): Result<Json>
  {
    Wrap(CommunityDataIsNotValid, CommunityBody(arg))
  }

  /** The explanation loop of `isCommunityDataValid`. */
  method ValidateExplanations(es: seq<Json>) returns (r: Result<seq<Json>>)
    ensures r == MapResult(es, Explanation)
  {
    var out: seq<Json> := [];
    var i := 0;
    while i < |es|
      invariant 0 <= i <= |es|
      invariant MapResult(es[..i], Explanation) == Ok(out)
    {
      var x := ValidateExplanation(es[i]);
      MapResultStep(es, Explanation, i);
      if x.Err? {
        return Err(x.error);
      }
      out := out + [x.value];
      i := i + 1;
    }
    assert es[..i] == es;
    return Ok(out);
  }

  method ValidateCommunity(arg: Json) returns (r: Result<Json>)
    ensures r == Community(arg)
  {
    var prefix := CommunityDataIsNotValid;
    var head := CommunityHead(arg);
    if head.Err? {
      return Err(prefix + head.error);
    }
    var (a, expl) := head.value;
    assert Community(arg) == Wrap(prefix, CommunityRest(a, expl));
    if expl.JNull? {
      return Err(prefix + TypeErrorMessage("length"));
    }
    var out := ValidateExplanations(Elements(expl));
    if out.Err? {
      return Err(prefix + out.error);
    }
    return Wrap(prefix, CommunityTail(a, expl, out.value));
  }

  // ---------------------------------------------------------------- users

  /** `explicit_community[k] === ""` becomes "(empty)" for every key. */
  function Placeholder(v: Json): (r: Json)
    ensures v != JStr("") ==> r == v
    ensures r != JStr("")
  {
    if v == JStr("") then JStr("(empty)") else v
  }

  function PlaceholderFields(fs: seq<(string, Json)>): (r: seq<(string, Json)>)
    ensures |r| == |fs|
    ensures forall i :: 0 <= i < |fs| ==> r[i] == (fs[i].0, Placeholder(fs[i].1))
  {
    if fs == [] then [] else [(fs[0].0, Placeholder(fs[0].1))] + PlaceholderFields(fs[1..])
  }

  function PlaceholderValues(v: Json): (r: Result<Json>)
    ensures r.Err? <==> v.JNull? || v.JUndef?
  {
    match v
    case JObj(fs) => Ok(JObj(PlaceholderFields(fs)))
    case JArr(items) => Ok(JArr(seq(|items|, i requires 0 <= i < |items| => Placeholder(items[i]))))
    case JNull => Err(CannotConvertUndefinedOrNullToObject)
    case JUndef => Err(CannotConvertUndefinedOrNullToObject)
    case _ => Ok(v)
  }

  /** The key loop of `isUserDataValid` over an object's fields. */
  method ReplaceEmptyValues(fs: seq<(string, Json)>) returns (r: seq<(string, Json)>)
    ensures r == PlaceholderFields(fs)
  {
    r := fs;
    var i := 0;
    while i < |fs|
      invariant 0 <= i <= |fs| && |r| == |fs|
      invariant forall j :: 0 <= j < i ==> r[j] == (fs[j].0, Placeholder(fs[j].1))
      invariant forall j :: i <= j < |fs| ==> r[j] == fs[j]
    {
      if r[i].1 == JStr("") {
        r := r[i := (r[i].0, JStr("(empty)"))];
      }
      i := i + 1;
    }
  }

  /** `isInteractionValid` up to its emotions loop. */
  function InteractionHead(arg: Json): (r: Result<Json>)
    ensures r.Ok? ==> r.value.JObj?
  {
    var a1 :- RequireString(arg, "artwork_id", ArtworkIdOfAnInteractionIsUndefined);
    var f := Field(a1, "feelings");
    Ok(if f.JStr? then a1 else JObj(Put(a1.fields, "feelings", if f.JUndef? then JStr("") else AsString(f))))
  }

  /** One `{value, count}` record of `extracted_emotions`. */
  function EmotionRecord(e: (string, Json)): Json
  {
    JObj([("value", JStr(e.0)), ("count", e.1)])
  }

  function EmotionList(entries: seq<(string, Json)>): (r: seq<Json>)
    ensures |r| == |entries|
    ensures forall i :: 0 <= i < |entries| ==> r[i] == EmotionRecord(entries[i])
  {
    if entries == [] then [] else [EmotionRecord(entries[0])] + EmotionList(entries[1..])
  }

  /** The emotions loop of `isInteractionValid`. */
  method BuildEmotionList(entries: seq<(string, Json)>) returns (r: seq<Json>)
    ensures r == EmotionList(entries)
  {
    r := [];
    var i := 0;
    while i < |entries|
      invariant 0 <= i <= |entries| && |r| == i
      invariant forall j :: 0 <= j < i ==> r[j] == EmotionRecord(entries[j])
    {
      r := r + [EmotionRecord(entries[i])];
      i := i + 1;
    }
  }

  function InteractionBody(arg: Json): Result<Json>
  {
    var a :- InteractionHead(arg);
    var ee := Field(a, "extracted_emotions");
    if ee.JUndef? then Ok(a)
    else
      var entries :- Wrap(ErrorWhileTryingToParseExtractedEmotionsData, OwnEntries(ee));
      Ok(JObj(Put(a.fields, "extracted_emotions", JArr(EmotionList(entries)))))
  }

  /** `isInteractionValid`. */
  function Interaction(arg: Json): Result<Json>
  {
    Wrap(InteractionDataIsNotValid, InteractionBody(arg))
  }

  method ValidateInteraction(arg: Json) returns (r: Result<Json>)
    ensures r == Interaction(arg)
  {
    var prefix := InteractionDataIsNotValid;
    var head := InteractionHead(arg);
    if head.Err? {
      return Err(prefix + head.error);
    }
    var a := head.value;
    var ee := Field(a, "extracted_emotions");
    if ee.JUndef? {
      return Ok(a);
    }
    var entries := OwnEntries(ee);
    if entries.Err? {
      return Err(prefix + ErrorWhileTryingToParseExtractedEmotionsData + entries.error);
    }
    var list := BuildEmotionList(entries.value);
    return Ok(JObj(Put(a.fields, "extracted_emotions", JArr(list))));
  }

  /** `for (i = 0; i < n; i++) v[i] = isInteractionValid(v[i])` over an object whose
      keys are looked up as "0", "1", …: indices `i` to `n - 1`. */
  function InteractionsByKey(fs: seq<(string, Json)>, i: nat, n: nat): Result<seq<(string, Json)>>
    decreases n - i
  {
    if i >= n then Ok(fs)
    else
      var x :- Interaction(Lookup(fs, NatToString(i)));
      InteractionsByKey(Put(fs, NatToString(i), x), i + 1, n)
  }

  /** The interaction loop over `v`, which has `n > 0` keys: an array's elements, an
      object's keys "0" … "n-1", or a string's characters (whose interactions always
      fail, so the string itself is never written). */
  function InteractionsLoop(v: Json, n: nat): Result<Json>
  {
    match v
    case JArr(items) =>
      var xs :- MapResult(items, Interaction);
      Ok(JArr(xs))
    case JObj(fs) =>
      var fs2 :- InteractionsByKey(fs, 0, n);
      Ok(JObj(fs2))
    case JStr(s) =>
      var _ :- MapResult(seq(|s|, i requires 0 <= i < |s| => JStr([s[i]])), Interaction);
      Ok(v)
    case _ => Ok(v)
  }

  /** `community_interactions` or `no_community_interactions` of a user: missing means
      `[]`; a non-empty one has every element validated, a failure getting `prefix`. */
  function Interactions(a: Json, k: string, prefix: string): (r: Result<Json>)
    requires a.JObj?
    ensures r.Ok? ==> r.value.JObj?
    ensures r.Ok? ==> forall k' :: k' != k ==> Lookup(r.value.fields, k') == Lookup(a.fields, k')
    ensures r.Ok? && Lookup(a.fields, k) == JUndef ==> Lookup(r.value.fields, k) == JArr([])
  {
    var ci := Field(a, k);
    var a1 := if ci.JUndef? then JObj(Put(a.fields, k, JArr([]))) else a;
    var ci1 := if ci.JUndef? then JArr([]) else ci;
    var entries :- OwnEntries(ci1);
    if |entries| == 0 then Ok(a1)
    else
      var ci2 :- Wrap(prefix, InteractionsLoop(ci1, |entries|));
      Ok(JObj(Put(a1.fields, k, ci2)))
  }

  /** The interaction loop over an array. */
  method ValidateInteractionList(items: seq<Json>) returns (r: Result<seq<Json>>)
    ensures r == MapResult(items, Interaction)
  {
    var out: seq<Json> := [];
    var i := 0;
    while i < |items|
      invariant 0 <= i <= |items|
      invariant MapResult(items[..i], Interaction) == Ok(out)
    {
      var x := ValidateInteraction(items[i]);
      MapResultStep(items, Interaction, i);
      if x.Err? {
        return Err(x.error);
      }
      out := out + [x.value];
      i := i + 1;
    }
    assert items[..i] == items;
    return Ok(out);
  }

  method ValidateInteractions(a: Json, k: string, prefix: string) returns (r: Result<Json>)
    requires a.JObj?
    ensures r == Interactions(a, k, prefix)
  {
    var ci := Field(a, k);
    if !ci.JArr? || |ci.items| == 0 {
      return Interactions(a, k, prefix);
    }
    var out := ValidateInteractionList(ci.items);
    if out.Err? {
      return Err(prefix + out.error);
    }
    return Ok(JObj(Put(a.fields, k, JArr(out.value))));
  }

  /** `isUserDataValid` up to `explicit_community`: id and label are strings, `group` is
      a number moved to `implicit_community`. */
  function UserHead(arg: Json): (r: Result<Json>)
    ensures r.Ok? ==> r.value.JObj?
  {
    var a1 :- RequireString(arg, "id", IdIsUndefined);
    var id := Field(a1, "id").s;
    var a2 :- RequireString(a1, "label", LabelOfTheUser + id + IsUndefinedTail);
    var a3 :- RequireNumber(a2, "group", GroupOfTheUser + id + IsUndefinedTail,
      GroupOfTheUser + id + IsNotANumberTail);
    var a4 := JObj(Remove(Put(a3.fields, "implicit_community", Field(a3, "group")), "group"));
    if Field(a4, "explicit_community").JUndef? then Ok(JObj(Put(a4.fields, "explicit_community", JObj([]))))
    else Ok(a4)
  }

  /** Both interaction lists of a user, the community ones first. */
  function UserInteractions(a: Json, id: string): (r: Result<Json>)
    requires a.JObj?
  {
    var a1 :- Interactions(a, "community_interactions", CommunityInteractionOfTheUser + id + HasProblemsTail);
    Interactions(a1, "no_community_interactions", NoCommunityInteractionOfTheUser + id + HasProblemsTail)
  }

  /** `explicit_community` must be an object; its empty values become "(empty)". */
  function UserExplicit(a: Json): Result<Json>
    requires a.JObj?
  {
    var id := ToStr(Field(a, "id"));
    var ec := Field(a, "explicit_community");
    if !IsObject(ec) then
      Err(ExplicitCommunityOfTheUser + id + IsNotAnObjectThereMayNotBeAnyExplicitCommunityValuesTail)
    else
      var ec2 :- PlaceholderValues(ec);
      UserInteractions(JObj(Put(a.fields, "explicit_community", ec2)), id)
  }

  function UserBody(arg: Json): Result<Json>
  {
    var a :- UserHead(arg);
    UserExplicit(a)
  }

  /** `isUserDataValid`. */
  function User(arg: Json): Result<Json>
  {
    Wrap(UserDataIsNotValid, UserBody(arg))
  }

  method ValidateUserInteractions(a: Json, id: string) returns (r: Result<Json>)
    requires a.JObj?
    ensures r == UserInteractions(a, id)
  {
    var a1 := ValidateInteractions(a, "community_interactions", CommunityInteractionOfTheUser + id + HasProblemsTail);
    if a1.Err? {
      return Err(a1.error);
    }
    r := ValidateInteractions(a1.value, "no_community_interactions", NoCommunityInteractionOfTheUser + id + HasProblemsTail);
  }

  method ValidateUserExplicit(a: Json) returns (r: Result<Json>)
    requires a.JObj?
    ensures r == UserExplicit(a)
  {
    var ec := Field(a, "explicit_community");
    if !ec.JObj? {
      return UserExplicit(a);
    }
    var fs := ReplaceEmptyValues(ec.fields);
    r := ValidateUserInteractions(JObj(Put(a.fields, "explicit_community", JObj(fs))), ToStr(Field(a, "id")));
  }

  method ValidateUser(arg: Json) returns (r: Result<Json>)
    ensures r == User(arg)
  {
    var head := UserHead(arg);
    if head.Err? {
      return Err(UserDataIsNotValid + head.error);
    }
    r := ValidateUserExplicit(head.value);
    r := Wrap(UserDataIsNotValid, r);
  }

  // ---------------------------------------------------------------- edges

  /** "U1 of the edge with value (…) is undefined": `value` was deleted just before, so
      the message always reads "(undefined)". */
  function EdgeBody(arg: Json): (r: Result<Option<Json>>)
    ensures r.Ok? && r.value.Some? ==> r.value.value.JObj?
  {
    var v :- Prop(arg, "value");
    if v.JUndef? then Err(ValueIsUndefined)
    else
      var n :- if v.JNum? then Ok(v.n) else if ToNum(v).None? then Err(ValueIsNotANumber) else Ok(ToNum(v).value);
      var fs1 := Remove(Put(Put(arg.fields, "value", JNum(n)), "similarity", JNum(n)), "value");
      var shown := ToStr(Lookup(fs1, "value"));
      var u1 := Lookup(fs1, "u1");
      if u1.JUndef? then Err(U1OfTheEdgeWithValue + shown + IsUndefinedTail)
      else
        var fs2 := Remove(Put(Put(fs1, "u1", AsString(u1)), "from", AsString(u1)), "u1");
        var u2 := Lookup(fs2, "u2");
        if u2.JUndef? then Err(U2OfTheEdgeWithValue + shown + IsUndefinedTail)
        else
          var fs3 := Remove(Put(Put(fs2, "u2", AsString(u2)), "to", AsString(u2)), "u2");
          if Lookup(fs3, "to") == Lookup(fs3, "from") then Ok(None) else Ok(Some(JObj(fs3)))
  }

  /** `isSimilarityDataValid`: `None` for a self-loop. */
  function Edge(arg: Json): (r: Result<Option<Json>>)
    ensures r.Ok? && r.value.Some? ==> r.value.value.JObj?
  {
    Wrap(EdgeDataIsNotValid, EdgeBody(arg))
  }

  /** The edge stored at index `i` once validated: a hole for a self-loop, otherwise the
      edge with `id = i`. */
  function Stored(e: Option<Json>, i: nat): (r: Json)
    ensures e.None? ==> r == JUndef
    ensures e.Some? && e.value.JObj? ==> r.JObj? && Lookup(r.fields, "id") == JNum(i as real)
  {
    match e
    case None => JUndef
    case Some(v) => if v.JObj? then JObj(Put(v.fields, "id", JNum(i as real))) else v
  }

  /** The backwards edge loop over `items[i..]` with the edge validator `g`: the last edge
      is validated first, so the failure reported is that of the highest failing index. */
  function EdgeSuffix(items: seq<Json>, i: nat, g: Json -> Result<Option<Json>>): (r: Result<seq<Json>>)
    requires i <= |items|
    ensures r.Ok? ==> |r.value| == |items| - i
    decreases |items| - i
  {
    if i == |items| then Ok([])
    else
      var tail :- EdgeSuffix(items, i + 1, g);
      var e :- g(items[i]);
      Ok([Stored(e, i)] + tail)
  }

  /** A failure found at index `i` is what every earlier starting point reports too. */
  lemma {:induction false} EdgeSuffixFailurePersists(items: seq<Json>, g: Json -> Result<Option<Json>>, j: nat, i: nat)
    requires j <= i <= |items| && EdgeSuffix(items, i, g).Err?
    ensures EdgeSuffix(items, j, g) == EdgeSuffix(items, i, g)
    decreases i - j
  {
    if j < i {
      EdgeSuffixFailurePersists(items, g, j + 1, i);
    }
  }

  /** The similarity loop of `validatePerspectiveDataJSON`, from the last edge down, with
      the edge validator `g`. */
  method ValidateEdges(items: seq<Json>, g: Json -> Result<Option<Json>>) returns (r: Result<seq<Json>>)
    ensures r == EdgeSuffix(items, 0, g)
  {
    var out := items;
    var i := |items|;
    assert EdgeSuffix(items, i, g) == Ok([]);
    assert out[i..] == [];
    while i > 0
      invariant 0 <= i <= |items| && |out| == |items|
      invariant forall j :: 0 <= j < i ==> out[j] == items[j]
      invariant EdgeSuffix(items, i, g) == Ok(out[i..])
    {
      i := i - 1;
      var e := g(out[i]);
      if e.Err? {
        EdgeSuffixFailurePersists(items, g, 0, i);
        return Err(e.error);
      }
      ghost var before := out;
      out := out[i := Stored(e.value, i)];
      assert out[i..] == [Stored(e.value, i)] + before[i + 1..];
    }
    assert out[0..] == out;
    return Ok(out);
  }

  // ---------------------------------------------------------------- artworks

  function ArtworkBody(arg: Json): Result<Json>
  {
    var a1 :- RequireString(arg, "id", IdIsUndefined);
    var a2 :- RequireString(a1, "tittle", IdIsUndefined);
    var a3 :- RequireString(a2, "author", IdIsUndefined);
    var a4 :- RequireString(a3, "year", YearIsUndefined);
    RequireString(a4, "image", IdIsUndefined)
  }

  /** `isArtworkDataValid`. */
  function Artwork(arg: Json): Result<Json>
  {
    Wrap(ArtworkDataIsNotValid, ArtworkBody(arg))
  }

  // ---------------------------------------------------------------- the file

  /** The four collections the data file must hold (`undefined` and non-objects are
      refused), in the order they are checked. */
  function DataHead(arg: Json): (r: Result<(Json, Json, Json, Json)>)
  {
    if arg.JUndef? then Err(PerspectiveNetworkDataIsUndefined)
    else
      var c :- RequireObject(arg, "communities", CommunitiesIsUndefined, CommunitiesIsNotAnObject);
      var u :- RequireObject(arg, "users", UsersIsUndefined, UsersIsNotAnObject);
      var s :- RequireObject(arg, "similarity", SimilarityIsUndefined, SimilarityIsNotAnObject);
      var a :- RequireObject(arg, "artworks", ArtworksIsUndefined, ArtworksIsNotAnObject);
      Ok((c, u, s, a))
  }

  /** The similarity collection after its backwards loop with the edge validator `g`. */
  function EdgeStage(v: Json, g: Json -> Result<Option<Json>>): Result<seq<Json>>
  {
    var xs :- Loopable(v);
    EdgeSuffix(xs, 0, g)
  }

  method EdgeStageLoop(v: Json, g: Json -> Result<Option<Json>>) returns (r: Result<seq<Json>>)
    ensures r == EdgeStage(v, g)
  {
    if v.JNull? || v.JUndef? {
      return Err(TypeErrorMessage("length"));
    }
    r := ValidateEdges(Elements(v), g);
  }

  /** The data file `o` once the artworks `a` went through their loop with `fa`. */
  function DataArtworks(o: Json, a: Json, fa: Json -> Result<Json>): (r: Result<Json>)
    requires o.JObj?
  {
    var as_ :- Stage(a, fa);
    Ok(WriteBack(o, "artworks", a, as_))
  }

  /** The data file `o` once the edges `s` and then the artworks `a` went through their
      loops, with the edge validator `g`. */
  function DataLinks(o: Json, s: Json, a: Json, g: Json -> Result<Option<Json>>, fa: Json -> Result<Json>): (r: Result<Json>)
    requires o.JObj?
  {
    var ss :- EdgeStage(s, g);
    DataArtworks(WriteBack(o, "similarity", s, ss), a, fa)
  }

  /** The data file `o` once the users `u`, the edges and the artworks went through
      their loops. */
  function DataUsers(o: Json, u: Json, s: Json, a: Json, fu: Json -> Result<Json>,
                     g: Json -> Result<Option<Json>>, fa: Json -> Result<Json>): (r: Result<Json>)
    requires o.JObj?
  {
    var us :- Stage(u, fu);
    DataLinks(WriteBack(o, "users", u, us), s, a, g, fa)
  }

  /** The data file `o` once its four collections `c`, `u`, `s` and `a` went through
      their loops, in that order, with the community, user, edge and artwork validators
      given as `fc`, `fu`, `g` and `fa`. */
  function DataLists(o: Json, c: Json, u: Json, s: Json, a: Json, fc: Json -> Result<Json>, fu: Json -> Result<Json>,
                     g: Json -> Result<Option<Json>>, fa: Json -> Result<Json>): (r: Result<Json>)
    requires o.JObj?
  {
    var cs :- Stage(c, fc);
    DataUsers(WriteBack(o, "communities", c, cs), u, s, a, fu, g, fa)
  }

  function DataBody(arg: Json): Result<Json>
  {
    var h :- DataHead(arg);
    assert arg.JObj?;
    DataLists(arg, h.0, h.1, h.2, h.3, Community, User, Edge, Artwork)
  }

  /** `validatePerspectiveDataJSON(arg)`. */
  function PerspectiveData(arg: Json): Result<Json>
  {
    Wrap(PerspectiveNetworkDataFileIsNotValid, DataBody(arg))
  }

  method ValidateDataArtworks(o: Json, a: Json, fa: Json -> Result<Json>) returns (r: Result<Json>)
    requires o.JObj?
    ensures r == DataArtworks(o, a, fa)
  {
    var as_ := StageLoop(a, fa);
    if as_.Err? {
      return Err(as_.error);
    }
    return Ok(WriteBack(o, "artworks", a, as_.value));
  }

  method ValidateDataLinks(o: Json, s: Json, a: Json, g: Json -> Result<Option<Json>>, fa: Json -> Result<Json>)
    returns (r: Result<Json>)
    requires o.JObj?
    ensures r == DataLinks(o, s, a, g, fa)
  {
    var ss := EdgeStageLoop(s, g);
    if ss.Err? {
      return Err(ss.error);
    }
    r := ValidateDataArtworks(WriteBack(o, "similarity", s, ss.value), a, fa);
  }

  method ValidateDataUsers(o: Json, u: Json, s: Json, a: Json, fu: Json -> Result<Json>,
                           g: Json -> Result<Option<Json>>, fa: Json -> Result<Json>) returns (r: Result<Json>)
    requires o.JObj?
    ensures r == DataUsers(o, u, s, a, fu, g, fa)
  {
    var us := StageLoop(u, fu);
    if us.Err? {
      return Err(us.error);
    }
    r := ValidateDataLinks(WriteBack(o, "users", u, us.value), s, a, g, fa);
  }

  method ValidateDataLists(o: Json, c: Json, u: Json, s: Json, a: Json, fc: Json -> Result<Json>, fu: Json -> Result<Json>,
                           g: Json -> Result<Option<Json>>, fa: Json -> Result<Json>) returns (r: Result<Json>)
    requires o.JObj?
    ensures r == DataLists(o, c, u, s, a, fc, fu, g, fa)
  {
    var cs := StageLoop(c, fc);
    if cs.Err? {
      return Err(cs.error);
    }
    r := ValidateDataUsers(WriteBack(o, "communities", c, cs.value), u, s, a, fu, g, fa);
  }

  method ValidatePerspectiveData(arg: Json) returns (r: Result<Json>)
    ensures r == PerspectiveData(arg)
  {
    var head := DataHead(arg);
    if head.Err? {
      return Err(PerspectiveNetworkDataFileIsNotValid + head.error);
    }
    var h := head.value;
    assert arg.JObj?;
    r := ValidateDataLists(arg, h.0, h.1, h.2, h.3, Community, User, Edge, Artwork);
    r := Wrap(PerspectiveNetworkDataFileIsNotValid, r);
  }

  // ================================================================ configuration seed

  /** `isNameAndTypePairValid`. */
  function NameAndType(arg: Json): Result<Json>
  {
    Wrap(NameAndTypeDataIsNotValid,
      if arg.JUndef? then Err(NameAndTypeDataIsUndefined)
      else
        var a1 :- RequireString(arg, "att_name", AttNameIsUndefined);
        RequireString(a1, "att_type", AttTypeIsUndefined))
  }

  /** `isNameAndIdPairValid`. */
  function NameAndId(arg: Json): Result<Json>
  {
    Wrap(NameAndIdDataIsNotValid,
      if arg.JUndef? then Err(NameAndIDDataIsUndefined)
      else
        var a1 :- RequireString(arg, "name", NameIsUndefined);
        RequireString(a1, "id", IdIsUndefined))
  }

  /** `isAlgorithmValid`: a string name; `params` defaults to [] and `default` to false. */
  function Algorithm(arg: Json): Result<Json>
  {
    Wrap(AlgorythmDataIsNotValid,
      var a1 :- RequireString(arg, "name", NameIsUndefined);
      var a2 :- Default(a1, "params", JArr([]));
      Default(a2, "default", JBool(false)))
  }

  /** `isInteractSimFuncsValid` up to its pair checks: the `sim_function` of the element
      with a string name and `params` defaulted to []. */
  function SimFuncHead(arg: Json): Result<Json>
  {
    var sf :- Prop(arg, "sim_function");
    if sf.JUndef? then Err(SimFunctionIsUndefined)
    else
      var a1 :- RequireString(sf, "name", NameIsUndefined);
      Default(a1, "params", JArr([]))
  }

  /** One pair check of a similarity function: the field `k` must be an object (the
      messages start with `what` and name the function `name`) and an accepted
      name-and-type pair, which is written back. */
  function SimFuncPair(a: Json, k: string, name: string, what: string): Result<Json>
    requires k != "length"
  {
    var p :- RequireObject(a, k, what + OfTheSimFunctionTail + name + IsUndefinedTail,
      what + OfTheSimFunctionTail + name + IsNotAnObjectTail);
    var p2 :- NameAndType(p);
    Ok(JObj(Put(a.fields, k, p2)))
  }

  function SimFuncBody(arg: Json): Result<Json>
  {
    var a2 :- SimFuncHead(arg);
    var name := ToStr(Field(a2, "name"));
    var a3 :- SimFuncPair(a2, "on_attribute", name, "Onattribute");
    SimFuncPair(a3, "interaction_object", name, "interaction_object")
  }

  /** `isInteractSimFuncsValid`: the element is replaced by its `sim_function`. */
  function InteractSimFunc(arg: Json): Result<Json>
  {
    Wrap(InteractionSimilarityFunctionDataIsNotValid, SimFuncBody(arg))
  }

  /** The message "Onattribute of the sim function (${arg.arg.name}) …": building it reads
      `arg.arg.name`, which throws a TypeError when `arg.arg` is missing, and then that
      TypeError is what is reported. */
  function OnAttributeMessage(arg: Json, tail: string): string
  {
    var inner := match Prop(arg, "arg") case Ok(x) => x case Err(_) => JUndef;
    match Prop(inner, "name")
    case Err(e) => e
    case Ok(n) => OnattributeOfTheSimFunction + ToStr(n) + ParenSpace + tail
  }

  /** `isArtworkAttributesValid` up to its loop; gives the attribute and its
      `sim_function` value. */
  function ArtworkAttributeHead(arg: Json): (r: Result<(Json, Json)>)
    ensures r.Ok? ==> r.value.0.JObj? && IsObject(r.value.1)
  {
    var on :- Prop(arg, "on_attribute");
    if on.JUndef? then Err(OnAttributeMessage(arg, IsUndefined))
    else if !IsObject(on) then Err(OnAttributeMessage(arg, IsNotAnObject))
    else
      var on2 :- NameAndType(on);
      var a1 := JObj(Put(arg.fields, "on_attribute", on2));
      var sf :- RequireObject(a1, "sim_function", AttributeSimFunctionIsUndefined, AttributeSimFunctionIsNotAnObject);
      Ok((a1, sf))
  }

  /** The loop of `isArtworkAttributesValid` over `sim_function`, written back into `a1`. */
  function ArtworkAttributeTail(a1: Json, sf: Json): Result<Json>
    requires a1.JObj?
  {
    var items :- Loopable(sf);
    var items2 :- MapResult(items, Algorithm);
    Ok(WriteBack(a1, "sim_function", sf, items2))
  }

  function ArtworkAttributeBody(arg: Json): Result<Json>
  {
    var (a1, sf) :- ArtworkAttributeHead(arg);
    ArtworkAttributeTail(a1, sf)
  }

  /** `isArtworkAttributesValid`. */
  function ArtworkAttribute(arg: Json): Result<Json>
  {
    Wrap(ArtworkAttributeDataDataIsNotValid, ArtworkAttributeBody(arg))
  }

  method ValidateArtworkAttribute(arg: Json) returns (r: Result<Json>)
    ensures r == ArtworkAttribute(arg)
  {
    var prefix := ArtworkAttributeDataDataIsNotValid;
    var head := ArtworkAttributeHead(arg);
    if head.Err? || head.value.1.JNull? {
      return ArtworkAttribute(arg);
    }
    var (a1, sf) := head.value;
    var items2 := MapEach(Elements(sf), Algorithm);
    if items2.Err? {
      return Err(prefix + items2.error);
    }
    return Ok(WriteBack(a1, "sim_function", sf, items2.value));
  }

  /** The five collections of a configuration seed, each required to be an object, in
      the order they are checked. */
  const SeedChecks := [
    ObjectCheck("artwork_attributes", ArtworkAttributesAreUndefined, ArtworkAttributesAreNotAnObject),
    ObjectCheck("user_attributes", UserAttributesAreUndefined, UserAttributesAreNotAnObject),
    ObjectCheck("interaction_similarity_functions", InteractionsSimilarityFunctionsAreUndefined,
      InteractionsSimilarityFunctionsAreNotAnObject),
    ObjectCheck("algorithm", AlgorithmsAreUndefined, AlgorithmsAreNotAnObject),
    ObjectCheck("artworks", ArtworksAreUndefined, ArtworksAreNotAnObject)]

  /** The loops over those collections, in source order, with their element validators. */
  const SeedStages: seq<(string, Json -> Result<Json>)> := [
    ("artwork_attributes", ArtworkAttribute),
    ("user_attributes", NameAndType),
    ("interaction_similarity_functions", InteractSimFunc),
    ("algorithm", Algorithm),
    ("artworks", NameAndId)]

  /** A configuration seed with the object checks `checks` and then the loops `stages`. */
  function SeedWith(arg: Json, checks: seq<ObjectCheck>, stages: seq<(string, Json -> Result<Json>)>): Result<Json>
    requires forall i :: 0 <= i < |checks| ==> checks[i].key != "length"
    requires |checks| > 0
  {
    if arg.JUndef? then Err(ConfigurationSeedIsUndefined)
    else
      var o :- CheckObjects(arg, checks);
      RunStages(o, stages)
  }

  /** `validateConfigurationSeed(arg)`. */
  function ConfigurationSeed(arg: Json): Result<Json>
  {
    Wrap(ConfigurationSeedFileIsNotValid, SeedWith(arg, SeedChecks, SeedStages))
  }

  method ValidateSeedWith(arg: Json, checks: seq<ObjectCheck>, stages: seq<(string, Json -> Result<Json>)>)
    returns (r: Result<Json>)
    requires forall i :: 0 <= i < |checks| ==> checks[i].key != "length"
    requires |checks| > 0
    ensures r == SeedWith(arg, checks, stages)
  {
    if arg.JUndef? {
      return Err(ConfigurationSeedIsUndefined);
    }
    var o := CheckEach(arg, checks);
    if o.Err? {
      return Err(o.error);
    }
    r := RunEach(o.value, stages);
  }

  method ValidateConfigurationSeed(arg: Json) returns (r: Result<Json>)
    ensures r == ConfigurationSeed(arg)
  {
    r := ValidateSeedWith(arg, SeedChecks, SeedStages);
    r := Wrap(ConfigurationSeedFileIsNotValid, r);
  }

  // ================================================================ what the validators promise

  /** An entry of the perspective ids file is accepted exactly when it is an object with an
      `id`. The accepted entry holds its id as a string, a name (the id when the name is not
      a string) and the inactive state; its other fields are kept. */
  lemma IdEntrySpec(e: Json)
    ensures e.JUndef? ==> IdEntry(e) == Err(APerspectiveOfThePerspectiveIDsFileIsUndefined)
    ensures !e.JUndef? && !IsObject(e) ==> IdEntry(e) == Err(APerspectiveOfThePerspectiveIDsFileIsNotAnObject)
    ensures IdEntry(e).Ok? <==> e.JObj? && Lookup(e.fields, "id") != JUndef
    ensures IdEntry(e).Ok? ==> IdEntry(e).value.JObj?
    ensures IdEntry(e).Ok? ==>
      var r := IdEntry(e).value.fields;
      var id := AsString(Lookup(e.fields, "id"));
      var name := Lookup(e.fields, "name");
      Lookup(r, "id") == id && Lookup(r, "name") == (if name.JStr? then name else id) &&
      Lookup(r, "isActive") == Unactive &&
      forall k :: k != "id" && k != "name" && k != "isActive" ==> Lookup(r, k) == Lookup(e.fields, k)
  {
  }

  /** The perspective ids file: anything but an object or an array is refused; an array is
      accepted exactly when every entry is, and becomes the list of accepted entries; an
      object without `length` is given a `length` of 0 and kept. */
  lemma PerspectiveIdFileSpec(arg: Json)
    ensures !IsObject(arg) ==> PerspectiveIdFile(arg).Err?
    ensures arg.JArr? ==>
      (PerspectiveIdFile(arg).Ok? <==> forall i :: 0 <= i < |arg.items| ==> IdEntry(arg.items[i]).Ok?)
    ensures arg.JArr? && PerspectiveIdFile(arg).Ok? ==>
      var r := PerspectiveIdFile(arg).value;
      r.JArr? && |r.items| == |arg.items| &&
      forall i :: 0 <= i < |arg.items| ==> r.items[i] == IdEntry(arg.items[i]).value
    ensures arg.JObj? && Lookup(arg.fields, "length") == JUndef ==>
      PerspectiveIdFile(arg) == Ok(JObj(Put(arg.fields, "length", JNum(0.0))))
  {
  }

  /** What the checks before the key loop of an implicit-attributes explanation demand. */
  lemma ImplicitAttributesHeadFacts(arg: Json)
    requires ImplicitAttributesHead(arg).Ok?
    ensures arg.JObj?
    ensures var d := Lookup(arg.fields, "explanation_data");
      d.JObj? && Lookup(d.fields, "label") != JUndef &&
      ImplicitAttributesHead(arg).value.0 == RequireString(d, "label", LabelTextIsUndefined).value &&
      ImplicitAttributesHead(arg).value.1 == Lookup(d.fields, "data") && IsObject(Lookup(d.fields, "data"))
  {
    var data := Prop(arg, "explanation_data").value;
    assert RequireString(data, "label", LabelTextIsUndefined).Ok?;
    assert arg.JObj? by {
      assert data.JObj?;
      assert !arg.JObj? ==> data == JUndef;
    }
  }

  /** An accepted implicit-attributes explanation has a label and an object of data, and
      only its `explanation_data` is rewritten. */
  lemma ImplicitAttributesSpec(arg: Json)
    requires ImplicitAttributes(arg).Ok?
    ensures arg.JObj?
    ensures var d := Lookup(arg.fields, "explanation_data");
      d.JObj? && Lookup(d.fields, "label") != JUndef && IsObject(Lookup(d.fields, "data"))
    ensures var r := ImplicitAttributes(arg).value;
      r.JObj? && forall k :: k != "explanation_data" ==> Lookup(r.fields, k) == Lookup(arg.fields, k)
  {
    assert ImplicitAttributesBody(arg).Ok?;
    ImplicitAttributesHeadFacts(arg);
    var (d1, inner) := ImplicitAttributesHead(arg).value;
    if Field(d1, "accordionMode").JUndef? {
      var list := CountList(OwnEntries(inner).value).value;
      assert ImplicitAttributesBody(arg) == ImplicitAttributesTail(arg, d1, list);
    }
  }

  /** When an accepted implicit-attributes explanation was not yet in accordion mode, its
      data becomes the `{value, count}` list of its entries, in key order, its label a
      string, and accordion mode is switched off. */
  lemma ImplicitAttributesData(arg: Json)
    requires ImplicitAttributes(arg).Ok?
    ensures arg.JObj?
    ensures var d := Lookup(arg.fields, "explanation_data");
      var r := ImplicitAttributes(arg).value;
      d.JObj? && Lookup(d.fields, "accordionMode") == JUndef ==>
        OwnEntries(Lookup(d.fields, "data")).Ok? && r.JObj? &&
        var entries := OwnEntries(Lookup(d.fields, "data")).value;
        var d2 := Lookup(r.fields, "explanation_data");
        d2.JObj? && Lookup(d2.fields, "accordionMode") == JBool(false) &&
        Lookup(d2.fields, "label") == AsString(Lookup(d.fields, "label")) &&
        Lookup(d2.fields, "data").JArr? && |Lookup(d2.fields, "data").items| == |entries| &&
        forall i :: 0 <= i < |entries| ==>
          entries[i].1.JNum? && Lookup(d2.fields, "data").items[i] == CountEntry(entries[i].0, entries[i].1).value
  {
    assert ImplicitAttributesBody(arg).Ok?;
    ImplicitAttributesHeadFacts(arg);
    var (d1, inner) := ImplicitAttributesHead(arg).value;
    var d := Lookup(arg.fields, "explanation_data");
    if Lookup(d.fields, "accordionMode") == JUndef {
      assert Field(d1, "accordionMode").JUndef?;
      var entries := OwnEntries(inner).value;
      assert CountList(entries).Ok?;
      var list := CountList(entries).value;
      var d2 := JObj(Put(Put(d1.fields, "accordionMode", JBool(false)), "data", JArr(list)));
      AccordionOff(d1, list);
      assert ImplicitAttributesBody(arg) == ImplicitAttributesTail(arg, d1, list);
      assert ImplicitAttributes(arg).value == JObj(Put(arg.fields, "explanation_data", d2));
    }
  }

  /** The explanation data written back after the key loop. */
  lemma AccordionOff(d1: Json, list: seq<Json>)
    requires d1.JObj?
    ensures var d2 := Put(Put(d1.fields, "accordionMode", JBool(false)), "data", JArr(list));
      Lookup(d2, "accordionMode") == JBool(false) && Lookup(d2, "data") == JArr(list) &&
      Lookup(d2, "label") == Lookup(d1.fields, "label")
  {
  }

  /** A medoid explanation is accepted exactly when it is an object whose
      `explanation_data` is an object with an `id`; that id becomes a string and nothing
      else changes. */
  lemma MedoidSpec(arg: Json)
    ensures var d := Field(arg, "explanation_data");
      Medoid(arg).Ok? <==> arg.JObj? && d.JObj? && Lookup(d.fields, "id") != JUndef
  {
    if Medoid(arg).Ok? {
      MedoidValues(arg);
    }
  }

  /** An accepted medoid explanation holds its id as a string and every other field of it
      and of its `explanation_data` as it was. */
  lemma MedoidValues(arg: Json)
    requires Medoid(arg).Ok?
    ensures arg.JObj? && Field(arg, "explanation_data").JObj? && Lookup(Field(arg, "explanation_data").fields, "id") != JUndef
    ensures var r := Medoid(arg).value; var d := Field(arg, "explanation_data");
      r.JObj? && var d2 := Lookup(r.fields, "explanation_data");
      d2.JObj? && Lookup(d2.fields, "id") == AsString(Lookup(d.fields, "id")) &&
      (forall k :: k != "id" ==> Lookup(d2.fields, k) == Lookup(d.fields, k)) &&
      forall k :: k != "explanation_data" ==> Lookup(r.fields, k) == Lookup(arg.fields, k)
  {
  }

  /** The explanation the checks before the type switch give, spelled out from the
      explanation `a1` with its type as a string and the member `t` that type names. */
  lemma ExplanationHeadShape(arg: Json)
    requires ExplanationHead(arg).Ok?
    ensures RequireString(arg, "explanation_type", ExplanationTypeIsUndefined).Ok?
    ensures var a1 := RequireString(arg, "explanation_type", ExplanationTypeIsUndefined).value;
      var t := EnumMember(ExplanationTypes, Field(a1, "explanation_type").s);
      var a2 := JObj(Put(a1.fields, "explanation_type", t));
      ExplanationHead(arg).value ==
        if t != JNum(0.0) && Field(a2, "visible").JUndef? then JObj(Put(a2.fields, "visible", JBool(false))) else a2
  {
  }

  /** The fields `fs` with the type `t` written in and, unless `t` is 0, `visible`
      defaulted to false. */
  lemma TypedFields(fs: seq<(string, Json)>, t: Json, a: Json)
    requires var a2 := JObj(Put(fs, "explanation_type", t));
      a == if t != JNum(0.0) && Field(a2, "visible").JUndef? then JObj(Put(a2.fields, "visible", JBool(false))) else a2
    ensures a.JObj? && Lookup(a.fields, "explanation_type") == t
  {
  }

  /** Unless the type is 0, `visible` is defaulted to false. */
  lemma TypedFieldsVisible(fs: seq<(string, Json)>, t: Json, a: Json)
    requires var a2 := JObj(Put(fs, "explanation_type", t));
      a == if t != JNum(0.0) && Field(a2, "visible").JUndef? then JObj(Put(a2.fields, "visible", JBool(false))) else a2
    ensures a.JObj? && (t != JNum(0.0) ==>
      Lookup(a.fields, "visible") == (if Lookup(fs, "visible") == JUndef then JBool(false) else Lookup(fs, "visible")))
  {
  }

  /** Writing the type and defaulting `visible` leaves the field `k` as it was. */
  lemma TypedFieldsKeeps(fs: seq<(string, Json)>, t: Json, a: Json, k: string)
    requires var a2 := JObj(Put(fs, "explanation_type", t));
      a == if t != JNum(0.0) && Field(a2, "visible").JUndef? then JObj(Put(a2.fields, "visible", JBool(false))) else a2
    requires k != "explanation_type" && k != "visible"
    ensures a.JObj? && Lookup(a.fields, k) == Lookup(fs, k)
  {
  }

  /** What the checks before the type switch of an explanation demand and give: the type
      name is replaced by the member, and an explanation other than an explicit-attributes
      one has a `visible` flag that defaults to false. */
  lemma ExplanationHeadFacts(arg: Json)
    requires ExplanationHead(arg).Ok?
    ensures arg.JObj? && Lookup(arg.fields, "explanation_type") != JUndef
    ensures var a := ExplanationHead(arg).value;
      var t := EnumMember(ExplanationTypes, AsString(Lookup(arg.fields, "explanation_type")).s);
      var vis := Lookup(arg.fields, "visible");
      Lookup(a.fields, "explanation_type") == t &&
      (t != JNum(0.0) ==> Lookup(a.fields, "visible") == (if vis == JUndef then JBool(false) else vis)) &&
      forall k :: k != "explanation_type" && k != "visible" ==> Lookup(a.fields, k) == Lookup(arg.fields, k)
  {
    ExplanationHeadShape(arg);
    var a1 := RequireString(arg, "explanation_type", ExplanationTypeIsUndefined).value;
    assert Field(a1, "explanation_type") == AsString(Lookup(arg.fields, "explanation_type"));
    RequireStringKeeps(arg, "explanation_type", ExplanationTypeIsUndefined, "visible");
    var t := EnumMember(ExplanationTypes, Field(a1, "explanation_type").s);
    TypedFields(a1.fields, t, ExplanationHead(arg).value);
    TypedFieldsVisible(a1.fields, t, ExplanationHead(arg).value);
    forall k | k != "explanation_type" && k != "visible"
      ensures Lookup(ExplanationHead(arg).value.fields, k) == Lookup(arg.fields, k)
    {
      TypedFieldsKeeps(a1.fields, t, ExplanationHead(arg).value, k);
      RequireStringKeeps(arg, "explanation_type", ExplanationTypeIsUndefined, k);
    }
  }

  /** The type switch keeps the type and the `visible` flag and gives the order of the
      type's member. */
  lemma ExplanationTypedFacts(a: Json)
    requires a.JObj? && ExplanationTyped(a).Ok?
    ensures var r := ExplanationTyped(a).value; var t := Lookup(a.fields, "explanation_type");
      r.JObj? && Lookup(r.fields, "explanation_type") == t &&
      Lookup(r.fields, "visible") == Lookup(a.fields, "visible") &&
      (t == JNum(0.0) ==> Lookup(r.fields, "order") == JNum(0.0)) &&
      (t == JNum(1.0) ==> Lookup(r.fields, "order") == JNum(2.0)) &&
      (t == JNum(2.0) ==> Lookup(r.fields, "order") == JNum(1.0))
  {
    var t := Field(a, "explanation_type");
    var r := ExplanationTyped(a).value;
    if t == JNum(0.0) {
      assert r == JObj(Put(a.fields, "order", JNum(0.0)));
    } else if t == JNum(1.0) {
      MedoidSpec(a);
      assert r == JObj(Put(Medoid(a).value.fields, "order", JNum(2.0)));
    } else if t == JNum(2.0) {
      ImplicitAttributesSpec(a);
      assert r == JObj(Put(ImplicitAttributes(a).value.fields, "order", JNum(1.0)));
    } else {
      assert r == a;
    }
  }

  /** An accepted explanation has its type name replaced by the member's index, the order
      it is sorted by (0 for explicit attributes, 1 for implicit attributes, 2 for a
      medoid) and, unless it is an explicit-attributes one, a `visible` flag that defaults
      to false. */
  lemma ExplanationSpec(arg: Json)
    requires Explanation(arg).Ok?
    ensures arg.JObj? && Lookup(arg.fields, "explanation_type") != JUndef
    ensures var r := Explanation(arg).value;
      var name := AsString(Lookup(arg.fields, "explanation_type")).s;
      r.JObj? &&
      (name in ExplanationTypes ==> Lookup(r.fields, "explanation_type") == JNum(IndexOf(ExplanationTypes, name) as real)) &&
      (name == "explicit_attributes" ==> Lookup(r.fields, "order") == JNum(0.0)) &&
      (name == "medoid" ==> Lookup(r.fields, "order") == JNum(2.0)) &&
      (name == "implicit_attributes" ==> Lookup(r.fields, "order") == JNum(1.0))
    ensures var r := Explanation(arg).value;
      var name := AsString(Lookup(arg.fields, "explanation_type")).s;
      var vis := Lookup(arg.fields, "visible");
      name != "explicit_attributes" ==> Lookup(r.fields, "visible") == (if vis == JUndef then JBool(false) else vis)
  {
    assert ExplanationHead(arg).Ok?;
    ExplanationHeadFacts(arg);
    var a := ExplanationHead(arg).value;
    var name := AsString(Lookup(arg.fields, "explanation_type")).s;
    var t := Field(a, "explanation_type");
    var r := Explanation(arg).value;
    assert r == ExplanationTyped(a).value;
    ExplanationTypedFacts(a);
    if t == JNum(0.0) {
      assert name in ExplanationTypes && IndexOf(ExplanationTypes, name) == 0;
    }
    if name == "explicit_attributes" {
      assert IndexOf(ExplanationTypes, name) == 0;
    } else if name == "medoid" {
      assert IndexOf(ExplanationTypes, name) == 1;
    } else if name == "implicit_attributes" {
      assert IndexOf(ExplanationTypes, name) == 2;
    }
  }

  /** The renames of an edge's fields: `value` to `similarity`, `u1` to `from`, `u2` to
      `to`; the renamed fields. */
  lemma EdgeRenames(fs: seq<(string, Json)>, n: real)
    ensures var fs1 := Remove(Put(Put(fs, "value", JNum(n)), "similarity", JNum(n)), "value");
      var u1 := Lookup(fs1, "u1");
      var fs2 := Remove(Put(Put(fs1, "u1", AsString(u1)), "from", AsString(u1)), "u1");
      var u2 := Lookup(fs2, "u2");
      var fs3 := Remove(Put(Put(fs2, "u2", AsString(u2)), "to", AsString(u2)), "u2");
      u1 == Lookup(fs, "u1") && u2 == Lookup(fs, "u2") &&
      Lookup(fs3, "from") == AsString(u1) && Lookup(fs3, "to") == AsString(u2) &&
      Lookup(fs3, "similarity") == JNum(n) &&
      Lookup(fs3, "value") == JUndef && Lookup(fs3, "u1") == JUndef && Lookup(fs3, "u2") == JUndef
  {
    var fs1 := Remove(Put(Put(fs, "value", JNum(n)), "similarity", JNum(n)), "value");
    RenamedAt(fs, "value", "similarity", JNum(n), "u1");
    RenamedAt(fs, "value", "similarity", JNum(n), "u2");
    var u1 := Lookup(fs1, "u1");
    var fs2 := Remove(Put(Put(fs1, "u1", AsString(u1)), "from", AsString(u1)), "u1");
    RenamedAt(fs1, "u1", "from", AsString(u1), "u2");
    var u2 := Lookup(fs2, "u2");
    RenamedAt(fs1, "u1", "from", AsString(u1), "from");
    RenamedAt(fs2, "u2", "to", AsString(u2), "from");
    RenamedAt(fs2, "u2", "to", AsString(u2), "to");
    RenamedAt(fs2, "u2", "to", AsString(u2), "similarity");
    RenamedAt(fs1, "u1", "from", AsString(u1), "similarity");
    RenamedAt(fs, "value", "similarity", JNum(n), "similarity");
    RenamedAt(fs2, "u2", "to", AsString(u2), "value");
    RenamedAt(fs1, "u1", "from", AsString(u1), "value");
    RenamedAt(fs2, "u2", "to", AsString(u2), "u1");
  }

  /** The renames of an edge's fields leave every field they do not name. */
  lemma EdgeRenamesOthers(fs: seq<(string, Json)>, n: real)
    ensures var fs1 := Remove(Put(Put(fs, "value", JNum(n)), "similarity", JNum(n)), "value");
      var u1 := Lookup(fs1, "u1");
      var fs2 := Remove(Put(Put(fs1, "u1", AsString(u1)), "from", AsString(u1)), "u1");
      var u2 := Lookup(fs2, "u2");
      var fs3 := Remove(Put(Put(fs2, "u2", AsString(u2)), "to", AsString(u2)), "u2");
      forall k :: k != "value" && k != "similarity" && k != "u1" && k != "u2" && k != "from" && k != "to" ==>
        Lookup(fs3, k) == Lookup(fs, k)
  {
    var fs1 := Remove(Put(Put(fs, "value", JNum(n)), "similarity", JNum(n)), "value");
    Renamed(fs, "value", "similarity", JNum(n));
    var u1 := Lookup(fs1, "u1");
    var fs2 := Remove(Put(Put(fs1, "u1", AsString(u1)), "from", AsString(u1)), "u1");
    Renamed(fs1, "u1", "from", AsString(u1));
    var u2 := Lookup(fs2, "u2");
    var fs3 := Remove(Put(Put(fs2, "u2", AsString(u2)), "to", AsString(u2)), "u2");
    Renamed(fs2, "u2", "to", AsString(u2));
    RenamesComposeOthers(fs, fs1, fs2, fs3);
  }

  /** Three renames in a row leave every field they do not name. */
  lemma RenamesComposeOthers(fs: seq<(string, Json)>, fs1: seq<(string, Json)>, fs2: seq<(string, Json)>,
                             fs3: seq<(string, Json)>)
    requires forall k :: k != "value" && k != "similarity" ==> Lookup(fs1, k) == Lookup(fs, k)
    requires forall k :: k != "u1" && k != "from" ==> Lookup(fs2, k) == Lookup(fs1, k)
    requires forall k :: k != "u2" && k != "to" ==> Lookup(fs3, k) == Lookup(fs2, k)
    ensures forall k :: k != "value" && k != "similarity" && k != "u1" && k != "u2" && k != "from" && k != "to" ==>
      Lookup(fs3, k) == Lookup(fs, k)
  {
  }

  /** A rename of `from` to `to`, read at one key. */
  lemma RenamedAt(fs: seq<(string, Json)>, from: string, to: string, x: Json, k: string)
    requires from != to
    ensures Lookup(Remove(Put(Put(fs, from, x), to, x), from), k) ==
      if k == from then JUndef else if k == to then x else Lookup(fs, k)
  {
  }

  lemma Renamed(fs: seq<(string, Json)>, from: string, to: string, x: Json)
    requires from != to
    ensures var r := Remove(Put(Put(fs, from, x), to, x), from);
      Lookup(r, to) == x && Lookup(r, from) == JUndef && forall k :: k != from && k != to ==> Lookup(r, k) == Lookup(fs, k)
  {
  }

  /** An edge is accepted exactly when it is an object with a numeric `value` and both
      endpoints. The accepted edge holds that number as `similarity` and its endpoints as
      the strings `from` and `to` (`value`, `u1` and `u2` are gone, nothing else changes);
      it is dropped, as `None`, exactly when both endpoints name the same node. */
  lemma EdgeSpec(arg: Json)
    ensures Edge(arg).Ok? <==>
      arg.JObj? && Lookup(arg.fields, "value") != JUndef && ToNum(Lookup(arg.fields, "value")).Some? &&
      Lookup(arg.fields, "u1") != JUndef && Lookup(arg.fields, "u2") != JUndef
    ensures Edge(arg).Ok? ==>
      (Edge(arg).value.None? <==> AsString(Lookup(arg.fields, "u1")) == AsString(Lookup(arg.fields, "u2")))
    ensures Edge(arg).Ok? && Edge(arg).value.Some? ==>
      var e := Edge(arg).value.value.fields;
      Lookup(e, "from") == AsString(Lookup(arg.fields, "u1")) && Lookup(e, "to") == AsString(Lookup(arg.fields, "u2")) &&
      Lookup(e, "similarity") == JNum(ToNum(Lookup(arg.fields, "value")).value) &&
      Lookup(e, "value") == JUndef && Lookup(e, "u1") == JUndef && Lookup(e, "u2") == JUndef &&
      forall k :: k != "value" && k != "similarity" && k != "u1" && k != "u2" && k != "from" && k != "to" ==>
        Lookup(e, k) == Lookup(arg.fields, k)
  {
    if arg.JObj? {
      var v := Lookup(arg.fields, "value");
      if v != JUndef && ToNum(v).Some? {
        var n := ToNum(v).value;
        if v.JNum? {
          ToNumCases(v.n, []);
        }
        EdgeRenames(arg.fields, n);
        EdgeRenamesOthers(arg.fields, n);
        var fs1 := Remove(Put(Put(arg.fields, "value", JNum(n)), "similarity", JNum(n)), "value");
        var u1 := Lookup(fs1, "u1");
        if u1 != JUndef {
          var fs2 := Remove(Put(Put(fs1, "u1", AsString(u1)), "from", AsString(u1)), "u1");
          var u2 := Lookup(fs2, "u2");
          if u2 != JUndef {
            var fs3 := Remove(Put(Put(fs2, "u2", AsString(u2)), "to", AsString(u2)), "u2");
            assert EdgeBody(arg) == if Lookup(fs3, "to") == Lookup(fs3, "from") then Ok(None) else Ok(Some(JObj(fs3)));
          }
        }
      }
    } else {
      assert Prop(arg, "value").Ok? ==> Prop(arg, "value").value == JUndef;
    }
  }

  /** The backwards edge loop from index `j` succeeds exactly when every edge from `j` on is
      accepted; each edge is then stored at its own index, a self-loop as a hole and any
      other edge with that index as its `id`. */
  lemma {:induction false} EdgeSuffixSpec(items: seq<Json>, j: nat, g: Json -> Result<Option<Json>>)
    requires j <= |items|
    ensures EdgeSuffix(items, j, g).Ok? <==> forall i :: j <= i < |items| ==> g(items[i]).Ok?
    ensures EdgeSuffix(items, j, g).Ok? ==>
      forall i :: j <= i < |items| ==> EdgeSuffix(items, j, g).value[i - j] == Stored(g(items[i]).value, i)
    decreases |items| - j
  {
    if j < |items| {
      EdgeSuffixSpec(items, j + 1, g);
    }
  }

  /** Since the loop runs from the last edge down, the failure it reports is that of the
      last edge that is refused. */
  lemma LastRefusedEdgeReported(items: seq<Json>, g: Json -> Result<Option<Json>>, i: nat)
    requires i < |items| && g(items[i]).Err?
    requires forall k :: i < k < |items| ==> g(items[k]).Ok?
    ensures EdgeSuffix(items, 0, g) == Err(g(items[i]).error)
  {
    EdgeSuffixSpec(items, i + 1, g);
    EdgeSuffixFailurePersists(items, g, 0, i);
  }

  /** What the checks before the explanation loop of a community give: the id and the name
      become strings, nothing else changes, and the explanations are passed on. */
  lemma CommunityHeadFacts(arg: Json)
    requires CommunityHead(arg).Ok?
    ensures arg.JObj? && Lookup(arg.fields, "id") != JUndef && Lookup(arg.fields, "name") != JUndef
    ensures var h := CommunityHead(arg).value;
      h.1 == Lookup(arg.fields, "explanations") &&
      Lookup(h.0.fields, "id") == AsString(Lookup(arg.fields, "id")) &&
      Lookup(h.0.fields, "name") == AsString(Lookup(arg.fields, "name")) &&
      forall k :: k != "id" && k != "name" ==> Lookup(h.0.fields, k) == Lookup(arg.fields, k)
  {
    var a1 := RequireString(arg, "id", IdIsUndefined).value;
    var id := Field(a1, "id").s;
    var m := NameOfTheCommunity + id + IsUndefinedTail;
    var a2 := RequireString(a1, "name", m).value;
    RequireStringKeeps(arg, "id", IdIsUndefined, "name");
    RequireStringKeeps(a1, "name", m, "id");
    forall k | k != "id" && k != "name"
      ensures Lookup(a2.fields, k) == Lookup(arg.fields, k)
    {
      RequireStringKeeps(arg, "id", IdIsUndefined, k);
      RequireStringKeeps(a1, "name", m, k);
    }
    assert CommunityHead(arg).value == (a2, Lookup(a2.fields, "explanations"));
  }

  /** The checks before the explanation loop leave the field `k` of a community as it was. */
  lemma CommunityHeadKeeps(arg: Json, k: string)
    requires CommunityHead(arg).Ok? && k != "id" && k != "name"
    ensures arg.JObj? && Lookup(CommunityHead(arg).value.0.fields, k) == Lookup(arg.fields, k)
  {
    CommunityHeadFacts(arg);
  }

  /** The users of an accepted community are an object or an array whose `length` is not
      0. */
  lemma CommunityHeadUsers(arg: Json)
    requires CommunityHead(arg).Ok?
    ensures arg.JObj?
    ensures var users := Lookup(arg.fields, "users");
      IsObject(users) && Prop(users, "length") != Ok(JNum(0.0)) && (users.JArr? ==> |users.items| > 0)
  {
    var a1 := RequireString(arg, "id", IdIsUndefined).value;
    var id := Field(a1, "id").s;
    var a2 := RequireString(a1, "name", NameOfTheCommunity + id + IsUndefinedTail).value;
    assert Lookup(a2.fields, "users") == Lookup(arg.fields, "users");
  }

  /** The community after its explanation loop: the explanations must be an array and are
      put in order. */
  lemma CommunityTailFacts(a: Json, expl: Json, validated: seq<Json>)
    requires a.JObj? && CommunityTail(a, expl, validated).Ok?
    ensures expl.JArr?
    ensures var r := CommunityTail(a, expl, validated).value;
      r.JObj? && Lookup(r.fields, "explanations") == JArr(SortByOrder(validated))
  {
    var a3 := JObj(Put(a.fields, "explanations", JArr(SortByOrder(validated))));
    CommunityTypedKeeps(a3, "explanations");
  }

  /** Resolving the type touches no field but `community-type` and `type`. */
  lemma CommunityTypedKeeps(a3: Json, k: string)
    requires a3.JObj? && k != "community-type" && k != "type"
    ensures Lookup(CommunityTyped(a3).fields, k) == Lookup(a3.fields, k)
  {
  }

  /** Resolving the type sets `type` from `community-type`. */
  lemma CommunityTypedType(a3: Json)
    requires a3.JObj?
    ensures Lookup(CommunityTyped(a3).fields, "type") == CommunityTypeOf(Lookup(a3.fields, "community-type"))
  {
  }

  /** The explanation loop gives a community the type its `community-type` resolves to. */
  lemma CommunityTailType(a: Json, expl: Json, validated: seq<Json>)
    requires a.JObj? && CommunityTail(a, expl, validated).Ok?
    ensures var r := CommunityTail(a, expl, validated).value;
      r.JObj? && Lookup(r.fields, "type") == CommunityTypeOf(Lookup(a.fields, "community-type"))
  {
    var a3 := JObj(Put(a.fields, "explanations", JArr(SortByOrder(validated))));
    PutAt(a.fields, "explanations", JArr(SortByOrder(validated)), "community-type");
    CommunityTypedType(a3);
  }

  /** A missing community type is `inexistent`, a type naming a member is that member, and
      one naming nothing (nor an index) is `implicit`. */
  lemma CommunityTypeOfFacts(ct: Json)
    ensures ct == JUndef ==> CommunityTypeOf(ct) == JNum(1.0)
    ensures ct != JUndef && AsString(ct).s in CommunityTypes ==>
      CommunityTypeOf(ct) == JNum(IndexOf(CommunityTypes, AsString(ct).s) as real)
    ensures ct != JUndef && AsString(ct).s !in CommunityTypes && AsString(ct).s != "0" && AsString(ct).s != "1" ==>
      CommunityTypeOf(ct) == JNum(0.0)
  {
    if ct != JUndef {
      var s := AsString(ct).s;
      if s !in CommunityTypes && s != "0" && s != "1" {
        assert NatToString(0) == "0" && NatToString(1) == "1";
        assert EnumMember(CommunityTypes, s) == JUndef;
      }
    }
  }

  /** An accepted community is its head followed by its explanation loop and tail. */
  lemma CommunityUnfold(arg: Json)
    requires Community(arg).Ok?
    ensures CommunityHead(arg).Ok?
    ensures var h := CommunityHead(arg).value;
      MapResult(Elements(h.1), Explanation).Ok? &&
      CommunityTail(h.0, h.1, MapResult(Elements(h.1), Explanation).value).Ok? &&
      Community(arg).value == CommunityTail(h.0, h.1, MapResult(Elements(h.1), Explanation).value).value
  {
    assert CommunityBody(arg).Ok?;
  }

  /** An accepted community is an object with an id, a name and users whose `length` is not
      0, and its explanations are an array of accepted explanations. */
  lemma CommunitySpec(arg: Json)
    requires Community(arg).Ok?
    ensures arg.JObj? && Lookup(arg.fields, "id") != JUndef && Lookup(arg.fields, "name") != JUndef
    ensures var users := Lookup(arg.fields, "users");
      IsObject(users) && Prop(users, "length") != Ok(JNum(0.0)) && (users.JArr? ==> |users.items| > 0)
    ensures var expl := Lookup(arg.fields, "explanations");
      expl.JArr? && forall i :: 0 <= i < |expl.items| ==> Explanation(expl.items[i]).Ok?
  {
    CommunityUnfold(arg);
    CommunityHeadFacts(arg);
    CommunityHeadUsers(arg);
    var (a, expl) := CommunityHead(arg).value;
    var validated := MapResult(Elements(expl), Explanation).value;
    CommunityTailFacts(a, expl, validated);
  }

  /** An accepted community holds its validated explanations in a stable order by their
      `order`: a permutation of them, sorted whenever every one has an order. */
  lemma CommunityOrderSpec(arg: Json)
    requires Community(arg).Ok?
    ensures arg.JObj? && Lookup(arg.fields, "explanations").JArr?
    ensures var expl := Lookup(arg.fields, "explanations").items;
      MapResult(expl, Explanation).Ok? &&
      var validated := MapResult(expl, Explanation).value;
      var r := Community(arg).value;
      r.JObj? && Lookup(r.fields, "explanations").JArr? &&
      var sorted := Lookup(r.fields, "explanations").items;
      multiset(sorted) == multiset(validated) &&
      (HasOrder(validated) ==> HasOrder(sorted) && OrderedByKey(sorted))
  {
    CommunityUnfold(arg);
    CommunityHeadFacts(arg);
    var (a, expl) := CommunityHead(arg).value;
    var validated := MapResult(Elements(expl), Explanation).value;
    CommunityTailFacts(a, expl, validated);
    if HasOrder(validated) {
      SortByOrderSorted(validated);
    }
  }

  /** An accepted community has its type resolved: `inexistent` when it is missing, the
      member its name names, or `implicit` for a name that is no member. */
  lemma CommunityTypeSpec(arg: Json)
    requires Community(arg).Ok?
    ensures arg.JObj?
    ensures var r := Community(arg).value;
      var ct := Lookup(arg.fields, "community-type");
      var t := Lookup(r.fields, "type");
      r.JObj? &&
      (ct == JUndef ==> t == JNum(1.0)) &&
      (ct != JUndef && AsString(ct).s in CommunityTypes ==> t == JNum(IndexOf(CommunityTypes, AsString(ct).s) as real)) &&
      (ct != JUndef && AsString(ct).s !in CommunityTypes && AsString(ct).s != "0" && AsString(ct).s != "1" ==>
        t == JNum(0.0))
  {
    CommunityUnfold(arg);
    var h := CommunityHead(arg).value;
    CommunityHeadKeeps(arg, "community-type");
    var validated := MapResult(Elements(h.1), Explanation).value;
    CommunityTailType(h.0, h.1, validated);
    CommunityTypeOfFacts(Lookup(arg.fields, "community-type"));
  }

  /** What the checks of an interaction before its emotions give: the artwork id becomes a
      string and the feelings a string, "" when missing; the emotions are left as they are. */
  lemma InteractionHeadFacts(arg: Json)
    requires InteractionHead(arg).Ok?
    ensures arg.JObj? && Lookup(arg.fields, "artwork_id") != JUndef
    ensures var a := InteractionHead(arg).value; var f := Lookup(arg.fields, "feelings");
      Lookup(a.fields, "artwork_id") == AsString(Lookup(arg.fields, "artwork_id")) &&
      Lookup(a.fields, "feelings") == (if f == JUndef then JStr("") else AsString(f)) &&
      Lookup(a.fields, "extracted_emotions") == Lookup(arg.fields, "extracted_emotions")
  {
    var a1 := RequireString(arg, "artwork_id", ArtworkIdOfAnInteractionIsUndefined).value;
    assert Lookup(a1.fields, "feelings") == Lookup(arg.fields, "feelings");
    assert Lookup(a1.fields, "extracted_emotions") == Lookup(arg.fields, "extracted_emotions");
  }

  /** An accepted interaction is an object with an artwork id, which becomes a string, and
      its feelings become a string, "" when missing. */
  lemma InteractionSpec(arg: Json)
    requires Interaction(arg).Ok?
    ensures arg.JObj? && Lookup(arg.fields, "artwork_id") != JUndef
    ensures var r := Interaction(arg).value; var f := Lookup(arg.fields, "feelings");
      r.JObj? && Lookup(r.fields, "artwork_id") == AsString(Lookup(arg.fields, "artwork_id")) &&
      Lookup(r.fields, "feelings") == (if f == JUndef then JStr("") else AsString(f))
  {
    assert InteractionHead(arg).Ok?;
    InteractionHeadFacts(arg);
    InteractionKeeps(arg, "artwork_id");
    InteractionKeeps(arg, "feelings");
  }

  /** The emotions step leaves every other field of the checked interaction as it was. */
  lemma InteractionKeeps(arg: Json, k: string)
    requires Interaction(arg).Ok? && k != "extracted_emotions"
    ensures InteractionHead(arg).Ok? && Interaction(arg).value.JObj?
    ensures Lookup(Interaction(arg).value.fields, k) == Lookup(InteractionHead(arg).value.fields, k)
  {
    var a := InteractionHead(arg).value;
    var r := Interaction(arg).value;
    if Field(a, "extracted_emotions").JUndef? {
      assert r == a;
    } else {
      var entries := OwnEntries(Field(a, "extracted_emotions")).value;
      assert r == JObj(Put(a.fields, "extracted_emotions", JArr(EmotionList(entries))));
    }
  }

  /** The extracted emotions of an accepted interaction, when present, become the list of
      `{value, count}` records of their entries, in key order. */
  lemma InteractionEmotionsSpec(arg: Json)
    requires Interaction(arg).Ok?
    ensures arg.JObj?
    ensures var ee := Lookup(arg.fields, "extracted_emotions");
      var r := Interaction(arg).value;
      ee != JUndef ==>
        OwnEntries(ee).Ok? && r.JObj? &&
        var entries := OwnEntries(ee).value;
        var out := Lookup(r.fields, "extracted_emotions");
        out.JArr? && |out.items| == |entries| &&
        forall i :: 0 <= i < |entries| ==> out.items[i] == JObj([("value", JStr(entries[i].0)), ("count", entries[i].1)])
  {
    assert InteractionHead(arg).Ok?;
    InteractionHeadFacts(arg);
  }

  /** The checks of a user before its explicit community, spelled out. */
  lemma UserHeadShape(arg: Json)
    requires UserHead(arg).Ok?
    ensures RequireString(arg, "id", IdIsUndefined).Ok?
    ensures var a1 := RequireString(arg, "id", IdIsUndefined).value;
      var id := Field(a1, "id").s;
      var a2 := RequireString(a1, "label", LabelOfTheUser + id + IsUndefinedTail);
      a2.Ok? &&
      var a3 := RequireNumber(a2.value, "group", GroupOfTheUser + id + IsUndefinedTail,
        GroupOfTheUser + id + IsNotANumberTail);
      a3.Ok? &&
      var a4 := JObj(Remove(Put(a3.value.fields, "implicit_community", Field(a3.value, "group")), "group"));
      UserHead(arg).value ==
        if Field(a4, "explicit_community").JUndef? then JObj(Put(a4.fields, "explicit_community", JObj([]))) else a4
  {
  }

  /** What the checks of a user before its explicit community give: id and label become
      strings and `group` becomes a number moved to `implicit_community`. */
  lemma UserHeadFacts(arg: Json)
    requires UserHead(arg).Ok?
    ensures arg.JObj? && Lookup(arg.fields, "id") != JUndef && Lookup(arg.fields, "label") != JUndef
    ensures var g := Lookup(arg.fields, "group"); g != JUndef && ToNum(g).Some?
    ensures var a := UserHead(arg).value;
      Lookup(a.fields, "id") == AsString(Lookup(arg.fields, "id")) &&
      Lookup(a.fields, "label") == AsString(Lookup(arg.fields, "label")) &&
      Lookup(a.fields, "group") == JUndef &&
      Lookup(a.fields, "implicit_community") == JNum(ToNum(Lookup(arg.fields, "group")).value)
  {
    UserHeadShape(arg);
    var a1 := RequireString(arg, "id", IdIsUndefined).value;
    var id := Field(a1, "id").s;
    var m1, m2, m3 := LabelOfTheUser + id + IsUndefinedTail, GroupOfTheUser + id + IsUndefinedTail,
      GroupOfTheUser + id + IsNotANumberTail;
    UserChecks(arg, m1, m2, m3);
    var a3 := RequireNumber(RequireString(a1, "label", m1).value, "group", m2, m3).value;
    var a4 := JObj(Remove(Put(a3.fields, "implicit_community", Field(a3, "group")), "group"));
    ExplicitDefaultKeeps(a4, "id");
    ExplicitDefaultKeeps(a4, "label");
    ExplicitDefaultKeeps(a4, "group");
    ExplicitDefaultKeeps(a4, "implicit_community");
  }

  /** Defaulting a missing `explicit_community` to `{}` leaves any other field as it was. */
  lemma ExplicitDefaultKeeps(a: Json, k: string)
    requires a.JObj? && k != "explicit_community"
    ensures var d := if Field(a, "explicit_community").JUndef? then JObj(Put(a.fields, "explicit_community", JObj([]))) else a;
      Lookup(d.fields, k) == Lookup(a.fields, k)
  {
  }

  /** The three field checks of a user, with their messages `m1`, `m2` and `m3`, followed by
      the move of `group` to `implicit_community`. */
  lemma UserChecks(arg: Json, m1: string, m2: string, m3: string)
    requires RequireString(arg, "id", IdIsUndefined).Ok?
    requires RequireString(RequireString(arg, "id", IdIsUndefined).value, "label", m1).Ok?
    requires RequireNumber(RequireString(RequireString(arg, "id", IdIsUndefined).value, "label", m1).value,
      "group", m2, m3).Ok?
    ensures arg.JObj? && Lookup(arg.fields, "id") != JUndef && Lookup(arg.fields, "label") != JUndef
    ensures var g := Lookup(arg.fields, "group"); g != JUndef && ToNum(g).Some?
    ensures var a3 := RequireNumber(RequireString(RequireString(arg, "id", IdIsUndefined).value, "label", m1).value,
        "group", m2, m3).value;
      var a4 := JObj(Remove(Put(a3.fields, "implicit_community", Field(a3, "group")), "group"));
      Lookup(a4.fields, "id") == AsString(Lookup(arg.fields, "id")) &&
      Lookup(a4.fields, "label") == AsString(Lookup(arg.fields, "label")) &&
      Lookup(a4.fields, "group") == JUndef &&
      Lookup(a4.fields, "implicit_community") == JNum(ToNum(Lookup(arg.fields, "group")).value)
  {
    var a1 := RequireString(arg, "id", IdIsUndefined).value;
    var a2 := RequireString(a1, "label", m1).value;
    var a3 := RequireNumber(a2, "group", m2, m3).value;
    assert Lookup(a1.fields, "group") == Lookup(arg.fields, "group");
    assert Lookup(a2.fields, "group") == Lookup(a1.fields, "group");
    assert Lookup(a2.fields, "id") == Lookup(a1.fields, "id");
    assert Lookup(a3.fields, "id") == Lookup(a2.fields, "id");
    assert Lookup(a1.fields, "label") == Lookup(arg.fields, "label");
    assert Lookup(a3.fields, "label") == Lookup(a2.fields, "label");
    MovedTo(a3.fields, "group", "implicit_community", "id");
    MovedTo(a3.fields, "group", "implicit_community", "label");
  }

  /** Moving the field `from` to `to` leaves the field `k` as it was. */
  lemma MovedTo(fs: seq<(string, Json)>, from: string, to: string, k: string)
    requires from != to && k != from && k != to
    ensures var r := Remove(Put(fs, to, Lookup(fs, from)), from);
      Lookup(r, to) == Lookup(fs, from) && Lookup(r, from) == JUndef && Lookup(r, k) == Lookup(fs, k)
  {
  }

  /** The checks of a user leave a field other than those they handle as it was, and
      give `{}` for a missing explicit community. */
  lemma UserHeadKeeps(arg: Json, k: string)
    requires UserHead(arg).Ok?
    requires k != "id" && k != "label" && k != "group" && k != "implicit_community"
    ensures arg.JObj?
    ensures var a := UserHead(arg).value; var v := Lookup(arg.fields, k);
      Lookup(a.fields, k) == if k == "explicit_community" && v == JUndef then JObj([]) else v
  {
    UserHeadShape(arg);
    var a1 := RequireString(arg, "id", IdIsUndefined).value;
    var id := Field(a1, "id").s;
    var a2 := RequireString(a1, "label", LabelOfTheUser + id + IsUndefinedTail).value;
    var a3 := RequireNumber(a2, "group", GroupOfTheUser + id + IsUndefinedTail,
      GroupOfTheUser + id + IsNotANumberTail).value;
    assert Lookup(a3.fields, k) == Lookup(arg.fields, k);
    var a4 := JObj(Remove(Put(a3.fields, "implicit_community", Field(a3, "group")), "group"));
    assert Lookup(a4.fields, k) == Lookup(arg.fields, k);
  }

  /** The explicit community of a checked user gets its placeholders. */
  lemma UserExplicitValue(a: Json)
    requires a.JObj? && UserExplicit(a).Ok?
    ensures var r := UserExplicit(a).value; var ec := Lookup(a.fields, "explicit_community");
      r.JObj? && IsObject(ec) && PlaceholderValues(ec).Ok? &&
      Lookup(r.fields, "explicit_community") == PlaceholderValues(ec).value
  {
    var id := ToStr(Field(a, "id"));
    var ec2 := PlaceholderValues(Field(a, "explicit_community")).value;
    var b := JObj(Put(a.fields, "explicit_community", ec2));
    var p1 := CommunityInteractionOfTheUser + id + HasProblemsTail;
    var p2 := NoCommunityInteractionOfTheUser + id + HasProblemsTail;
    var b1 := Interactions(b, "community_interactions", p1).value;
    assert UserExplicit(a).value == Interactions(b1, "no_community_interactions", p2).value;
    InteractionsKeep(b, "community_interactions", p1, "explicit_community");
    InteractionsKeep(b1, "no_community_interactions", p2, "explicit_community");
  }

  /** An interaction list step leaves the field `k'` as it was. */
  lemma InteractionsKeep(a: Json, k: string, prefix: string, k': string)
    requires a.JObj? && Interactions(a, k, prefix).Ok? && k' != k
    ensures Lookup(Interactions(a, k, prefix).value.fields, k') == Lookup(a.fields, k')
  {
  }

  /** The steps after the checks of a user validate the interaction lists, a missing one
      becoming `[]`, and leave every other field but `explicit_community` as it was. */
  lemma UserTailKeeps(a: Json, k: string)
    requires a.JObj? && UserExplicit(a).Ok? && k != "explicit_community"
    ensures var r := UserExplicit(a).value;
      r.JObj? &&
      (k != "community_interactions" && k != "no_community_interactions" ==> Lookup(r.fields, k) == Lookup(a.fields, k)) &&
      ((k == "community_interactions" || k == "no_community_interactions") && Lookup(a.fields, k) == JUndef ==>
        Lookup(r.fields, k) == JArr([]))
  {
    var id := ToStr(Field(a, "id"));
    var ec2 := PlaceholderValues(Field(a, "explicit_community")).value;
    var b := JObj(Put(a.fields, "explicit_community", ec2));
    var b1 := Interactions(b, "community_interactions", CommunityInteractionOfTheUser + id + HasProblemsTail).value;
    assert UserExplicit(a).value ==
      Interactions(b1, "no_community_interactions", NoCommunityInteractionOfTheUser + id + HasProblemsTail).value;
    assert Lookup(b.fields, k) == Lookup(a.fields, k);
    if k != "community_interactions" {
      assert Lookup(b1.fields, k) == Lookup(a.fields, k);
    }
  }

  /** An accepted user is an object with an id, a label and a numeric group. Id and label
      are then strings, the group is moved to `implicit_community`, and the explicit
      community (`{}` when missing) has every "" value replaced by "(empty)". */
  lemma UserSpec(arg: Json)
    requires User(arg).Ok?
    ensures arg.JObj? && Lookup(arg.fields, "id") != JUndef && Lookup(arg.fields, "label") != JUndef
    ensures var g := Lookup(arg.fields, "group"); g != JUndef && ToNum(g).Some?
    ensures var r := User(arg).value;
      r.JObj? &&
      Lookup(r.fields, "id") == AsString(Lookup(arg.fields, "id")) &&
      Lookup(r.fields, "label") == AsString(Lookup(arg.fields, "label")) &&
      Lookup(r.fields, "group") == JUndef &&
      Lookup(r.fields, "implicit_community") == JNum(ToNum(Lookup(arg.fields, "group")).value)
    ensures var r := User(arg).value;
      var ec0 := Lookup(arg.fields, "explicit_community");
      var ec := if ec0 == JUndef then JObj([]) else ec0;
      var ec2 := Lookup(r.fields, "explicit_community");
      ec.JObj? ==> (ec2.JObj? && |ec2.fields| == |ec.fields| &&
        forall i :: 0 <= i < |ec.fields| ==>
          ec2.fields[i].0 == ec.fields[i].0 && ec2.fields[i].1 != JStr("") &&
          (ec.fields[i].1 != JStr("") ==> ec2.fields[i].1 == ec.fields[i].1))
  {
    assert UserHead(arg).Ok?;
    UserHeadFacts(arg);
    UserHeadKeeps(arg, "explicit_community");
    var a := UserHead(arg).value;
    assert User(arg).value == UserExplicit(a).value;
    UserTailKeeps(a, "id");
    UserTailKeeps(a, "label");
    UserTailKeeps(a, "group");
    UserTailKeeps(a, "implicit_community");
    UserExplicitValue(a);
  }

  /** A user's missing interaction lists become empty lists. */
  lemma UserInteractionsSpec(arg: Json)
    requires User(arg).Ok?
    ensures arg.JObj?
    ensures var r := User(arg).value;
      r.JObj? &&
      (Lookup(arg.fields, "community_interactions") == JUndef ==> Lookup(r.fields, "community_interactions") == JArr([])) &&
      (Lookup(arg.fields, "no_community_interactions") == JUndef ==> Lookup(r.fields, "no_community_interactions") == JArr([]))
  {
    assert UserHead(arg).Ok?;
    var a := UserHead(arg).value;
    UserHeadKeeps(arg, "community_interactions");
    UserHeadKeeps(arg, "no_community_interactions");
    assert User(arg).value == UserExplicit(a).value;
    UserTailKeeps(a, "community_interactions");
    UserTailKeeps(a, "no_community_interactions");
  }

  /** An artwork is accepted exactly when it is an object with an id, a title (spelled
      `tittle`), an author, a year and an image. A missing title, author or image is
      reported as a missing id. */
  lemma ArtworkSpec(arg: Json)
    ensures Artwork(arg).Ok? <==> (arg.JObj? && forall k :: k in ArtworkStrings ==> Lookup(arg.fields, k) != JUndef)
  {
    if Artwork(arg).Ok? {
      ArtworkValuesSpec(arg);
    }
    if arg.JObj? && forall k :: k in ArtworkStrings ==> Lookup(arg.fields, k) != JUndef {
      assert ArtworkStrings[0] in ArtworkStrings && ArtworkStrings[1] in ArtworkStrings &&
        ArtworkStrings[2] in ArtworkStrings && ArtworkStrings[3] in ArtworkStrings && ArtworkStrings[4] in ArtworkStrings;
      ArtworkAccepted(arg);
    }
  }

  /** An object with the five fields passes the five coercions. */
  lemma ArtworkAccepted(arg: Json)
    requires arg.JObj? && Lookup(arg.fields, "id") != JUndef && Lookup(arg.fields, "tittle") != JUndef &&
      Lookup(arg.fields, "author") != JUndef && Lookup(arg.fields, "year") != JUndef &&
      Lookup(arg.fields, "image") != JUndef
    ensures ArtworkBody(arg).Ok?
  {
    var a1 := RequireString(arg, "id", IdIsUndefined).value;
    RequireTwoStrings(arg, "id", IdIsUndefined, "tittle", IdIsUndefined);
    var a2 := RequireString(a1, "tittle", IdIsUndefined).value;
    ArtworkAcceptedRest(a2);
  }

  /** The last three coercions of an artwork pass when the three fields are there. */
  lemma ArtworkAcceptedRest(a2: Json)
    requires a2.JObj? && Lookup(a2.fields, "author") != JUndef && Lookup(a2.fields, "year") != JUndef &&
      Lookup(a2.fields, "image") != JUndef
    ensures RequireString(a2, "author", IdIsUndefined).Ok?
    ensures var a3 := RequireString(a2, "author", IdIsUndefined).value;
      RequireString(a3, "year", YearIsUndefined).Ok? &&
      RequireString(RequireString(a3, "year", YearIsUndefined).value, "image", IdIsUndefined).Ok?
  {
    var a3 := RequireString(a2, "author", IdIsUndefined).value;
    RequireTwoStrings(a3, "year", YearIsUndefined, "image", IdIsUndefined);
  }

  /** The messages of a refused artwork, before `Wrap` adds its prefix: a missing year is
      reported as such, a missing title as a missing id. */
  lemma ArtworkMessages(arg: Json)
    ensures (arg.JObj? && Lookup(arg.fields, "id") != JUndef && Lookup(arg.fields, "tittle") != JUndef &&
             Lookup(arg.fields, "author") != JUndef && Lookup(arg.fields, "year") == JUndef) ==>
      ArtworkBody(arg) == Err(YearIsUndefined)
    ensures (arg.JObj? && Lookup(arg.fields, "id") != JUndef && Lookup(arg.fields, "tittle") == JUndef) ==>
      ArtworkBody(arg) == Err(IdIsUndefined)
  {
    if arg.JObj? && Lookup(arg.fields, "id") != JUndef {
      var a1 := RequireString(arg, "id", IdIsUndefined).value;
      RequireStringKeeps(arg, "id", IdIsUndefined, "tittle");
      if Lookup(arg.fields, "tittle") != JUndef && Lookup(arg.fields, "author") != JUndef &&
         Lookup(arg.fields, "year") == JUndef {
        var a2 := RequireString(a1, "tittle", IdIsUndefined).value;
        RequireStringKeeps(arg, "id", IdIsUndefined, "author");
        RequireStringKeeps(arg, "id", IdIsUndefined, "year");
        RequireStringKeeps(a1, "tittle", IdIsUndefined, "author");
        RequireStringKeeps(a1, "tittle", IdIsUndefined, "year");
        var a3 := RequireString(a2, "author", IdIsUndefined).value;
        RequireStringKeeps(a2, "author", IdIsUndefined, "year");
        assert RequireString(a3, "year", YearIsUndefined) == Err(YearIsUndefined);
      }
    }
  }

  /** An accepted artwork holds its five fields as strings and every other field as it was. */
  lemma ArtworkValuesSpec(arg: Json)
    requires Artwork(arg).Ok?
    ensures arg.JObj? && forall k :: k in ArtworkStrings ==> Lookup(arg.fields, k) != JUndef
    ensures forall k :: k in ArtworkStrings ==> Lookup(Artwork(arg).value.fields, k) == AsString(Lookup(arg.fields, k))
    ensures forall k :: k !in ArtworkStrings ==> Lookup(Artwork(arg).value.fields, k) == Lookup(arg.fields, k)
  {
    var a1 := RequireString(arg, "id", IdIsUndefined).value;
    var a2 := RequireString(a1, "tittle", IdIsUndefined).value;
    var a3 := RequireString(a2, "author", IdIsUndefined).value;
    var a4 := RequireString(a3, "year", YearIsUndefined).value;
    var a5 := RequireString(a4, "image", IdIsUndefined).value;
    assert Artwork(arg).value == a5;
    forall k ensures Lookup(a5.fields, k) == (if k in ArtworkStrings then AsString(Lookup(arg.fields, k))
                                              else Lookup(arg.fields, k)) {
      StringChainStep(arg, a1, a2, a3, a4, a5, k);
    }
    forall k | k in ArtworkStrings ensures Lookup(arg.fields, k) != JUndef {
      StringChainStep(arg, a1, a2, a3, a4, a5, k);
    }
  }

  /** The fields an artwork coerces to strings. */
  const ArtworkStrings := ["id", "tittle", "author", "year", "image"]

  /** One field through the five coercions of an artwork. */
  lemma StringChainStep(arg: Json, a1: Json, a2: Json, a3: Json, a4: Json, a5: Json, k: string)
    requires RequireString(arg, "id", IdIsUndefined) == Ok(a1)
    requires RequireString(a1, "tittle", IdIsUndefined) == Ok(a2)
    requires RequireString(a2, "author", IdIsUndefined) == Ok(a3)
    requires RequireString(a3, "year", YearIsUndefined) == Ok(a4)
    requires RequireString(a4, "image", IdIsUndefined) == Ok(a5)
    ensures Lookup(a5.fields, k) == (if k in ArtworkStrings then AsString(Lookup(arg.fields, k)) else Lookup(arg.fields, k))
  {
  }

  /** A name-and-type pair is accepted exactly when it is an object with both fields; they
      become strings and every other field is kept. */
  lemma NameAndTypeSpec(arg: Json)
    ensures NameAndType(arg).Ok? <==>
      (arg.JObj? && Lookup(arg.fields, "att_name") != JUndef && Lookup(arg.fields, "att_type") != JUndef)
    ensures NameAndType(arg).Ok? ==> (
      var r := NameAndType(arg).value;
      Lookup(r.fields, "att_name") == AsString(Lookup(arg.fields, "att_name")) &&
      Lookup(r.fields, "att_type") == AsString(Lookup(arg.fields, "att_type")) &&
      forall k :: k != "att_name" && k != "att_type" ==> Lookup(r.fields, k) == Lookup(arg.fields, k))
  {
    if arg.JObj? && Lookup(arg.fields, "att_name") != JUndef {
      RequireStringKeeps(arg, "att_name", AttNameIsUndefined, "att_type");
    }
  }

  /** A name-and-id pair is accepted exactly when it is an object with both fields; they
      become strings and every other field is kept. */
  lemma NameAndIdSpec(arg: Json)
    ensures NameAndId(arg).Ok? <==>
      (arg.JObj? && Lookup(arg.fields, "name") != JUndef && Lookup(arg.fields, "id") != JUndef)
    ensures NameAndId(arg).Ok? ==> (
      var r := NameAndId(arg).value;
      Lookup(r.fields, "name") == AsString(Lookup(arg.fields, "name")) &&
      Lookup(r.fields, "id") == AsString(Lookup(arg.fields, "id")) &&
      forall k :: k != "name" && k != "id" ==> Lookup(r.fields, k) == Lookup(arg.fields, k))
  {
    if arg.JObj? && Lookup(arg.fields, "name") != JUndef {
      RequireStringKeeps(arg, "name", NameIsUndefined, "id");
    }
  }

  /** An algorithm is accepted exactly when it is an object with a name; the name becomes a
      string, a missing `params` becomes `[]`, a missing `default` becomes `false`, and
      every other field is kept. */
  lemma AlgorithmSpec(arg: Json)
    ensures Algorithm(arg).Ok? <==> (arg.JObj? && Lookup(arg.fields, "name") != JUndef)
    ensures Algorithm(arg).Ok? ==> (
      var r := Algorithm(arg).value;
      var p := Lookup(arg.fields, "params");
      var d := Lookup(arg.fields, "default");
      Lookup(r.fields, "name") == AsString(Lookup(arg.fields, "name")) &&
      Lookup(r.fields, "params") == (if p == JUndef then JArr([]) else p) &&
      Lookup(r.fields, "default") == (if d == JUndef then JBool(false) else d) &&
      forall k :: k != "name" && k != "params" && k != "default" ==> Lookup(r.fields, k) == Lookup(arg.fields, k))
  {
    if arg.JObj? && Lookup(arg.fields, "name") != JUndef {
      var a1 := RequireString(arg, "name", NameIsUndefined).value;
      RequireStringKeeps(arg, "name", NameIsUndefined, "params");
      RequireStringKeeps(arg, "name", NameIsUndefined, "default");
      var a2 := Default(a1, "params", JArr([])).value;
      var a3 := Default(a2, "default", JBool(false)).value;
      assert Lookup(a3.fields, "name") == Lookup(a2.fields, "name");
      assert Lookup(a3.fields, "params") == Lookup(a2.fields, "params");
      assert Lookup(a2.fields, "default") == Lookup(a1.fields, "default");
    }
  }

  /** The head of a similarity function succeeds exactly when the element's
      `sim_function` is an object with a name; it then holds the name as a string,
      `params` defaulted to [] and every other field as it was. */
  lemma SimFuncHeadSpec(arg: Json)
    ensures SimFuncHead(arg).Ok? <==> (
      !arg.JNull? && !arg.JUndef? &&
      var sf := Prop(arg, "sim_function").value;
      sf.JObj? && Lookup(sf.fields, "name") != JUndef)
    ensures SimFuncHead(arg).Ok? ==> (
      var sf := Prop(arg, "sim_function").value;
      var r := SimFuncHead(arg).value;
      var p := Lookup(sf.fields, "params");
      r.JObj? &&
      Lookup(r.fields, "name") == AsString(Lookup(sf.fields, "name")) &&
      Lookup(r.fields, "params") == (if p == JUndef then JArr([]) else p))
  {
    if SimFuncHead(arg).Ok? {
      var sf := Prop(arg, "sim_function").value;
      RequireStringKeeps(sf, "name", NameIsUndefined, "params");
    }
  }

  /** The head of a similarity function keeps the fields other than the name and `params`
      of the `sim_function` as they were. */
  lemma SimFuncHeadKeeps(arg: Json, k: string)
    requires SimFuncHead(arg).Ok? && k != "name" && k != "params"
    ensures Prop(arg, "sim_function").Ok? && Prop(arg, "sim_function").value.JObj?
    ensures Lookup(SimFuncHead(arg).value.fields, k) == Lookup(Prop(arg, "sim_function").value.fields, k)
  {
    var sf := Prop(arg, "sim_function").value;
    RequireStringKeeps(sf, "name", NameIsUndefined, k);
  }

  /** A pair check succeeds exactly when the object holds an accepted name-and-type pair at
      `k`; it then holds the validated pair there and every other field as it was. */
  lemma SimFuncPairSpec(a: Json, k: string, name: string, what: string)
    requires k != "length"
    ensures SimFuncPair(a, k, name, what).Ok? <==> (a.JObj? && NameAndType(Lookup(a.fields, k)).Ok?)
    ensures SimFuncPair(a, k, name, what).Ok? ==> (
      var r := SimFuncPair(a, k, name, what).value;
      r.JObj? && Lookup(r.fields, k) == NameAndType(Lookup(a.fields, k)).value)
  {
    if a.JObj? {
      NameAndTypeSpec(Lookup(a.fields, k));
    }
  }

  /** A pair check leaves every other field as it was. */
  lemma SimFuncPairKeeps(a: Json, k: string, name: string, what: string, k': string)
    requires k != "length" && SimFuncPair(a, k, name, what).Ok? && k' != k
    ensures a.JObj? && Lookup(SimFuncPair(a, k, name, what).value.fields, k') == Lookup(a.fields, k')
  {
  }

  /** An interaction similarity function entry is accepted exactly when its
      `sim_function` is an object with a name, and its `on_attribute` and
      `interaction_object` are accepted name-and-type pairs. The entry becomes that
      `sim_function`, with the name as a string, `params` defaulted to `[]` and both pairs
      validated. */
  lemma InteractSimFuncSpec(arg: Json)
    ensures (arg.JNull? || arg.JUndef?) ==> InteractSimFunc(arg).Err?
    ensures InteractSimFunc(arg).Ok? <==> (
      !arg.JNull? && !arg.JUndef? &&
      var sf := Prop(arg, "sim_function").value;
      sf.JObj? && Lookup(sf.fields, "name") != JUndef &&
      NameAndType(Lookup(sf.fields, "on_attribute")).Ok? &&
      NameAndType(Lookup(sf.fields, "interaction_object")).Ok?)
    ensures InteractSimFunc(arg).Ok? ==> (
      Prop(arg, "sim_function").Ok? && Prop(arg, "sim_function").value.JObj? &&
      InteractSimFunc(arg).value.JObj? &&
      var sf := Prop(arg, "sim_function").value;
      var r := InteractSimFunc(arg).value;
      var p := Lookup(sf.fields, "params");
      Lookup(r.fields, "name") == AsString(Lookup(sf.fields, "name")) &&
      Lookup(r.fields, "params") == (if p == JUndef then JArr([]) else p) &&
      Lookup(r.fields, "on_attribute") == NameAndType(Lookup(sf.fields, "on_attribute")).value &&
      Lookup(r.fields, "interaction_object") == NameAndType(Lookup(sf.fields, "interaction_object")).value)
  {
    assert InteractSimFunc(arg).Ok? <==> SimFuncBody(arg).Ok?;
    assert InteractSimFunc(arg).Ok? ==> InteractSimFunc(arg).value == SimFuncBody(arg).value;
    SimFuncHeadSpec(arg);
    if SimFuncHead(arg).Ok? {
      var sf := Prop(arg, "sim_function").value;
      var a2 := SimFuncHead(arg).value;
      var name := ToStr(Field(a2, "name"));
      SimFuncHeadKeeps(arg, "on_attribute");
      SimFuncHeadKeeps(arg, "interaction_object");
      SimFuncPairSpec(a2, "on_attribute", name, "Onattribute");
      if SimFuncPair(a2, "on_attribute", name, "Onattribute").Ok? {
        var a3 := SimFuncPair(a2, "on_attribute", name, "Onattribute").value;
        SimFuncPairSpec(a3, "interaction_object", name, "interaction_object");
        SimFuncPairKeeps(a2, "on_attribute", name, "Onattribute", "interaction_object");
        SimFuncPairKeeps(a2, "on_attribute", name, "Onattribute", "name");
        SimFuncPairKeeps(a2, "on_attribute", name, "Onattribute", "params");
        if SimFuncPair(a3, "interaction_object", name, "interaction_object").Ok? {
          SimFuncPairKeeps(a3, "interaction_object", name, "interaction_object", "on_attribute");
          SimFuncPairKeeps(a3, "interaction_object", name, "interaction_object", "name");
          SimFuncPairKeeps(a3, "interaction_object", name, "interaction_object", "params");
        }
      }
    }
  }

  /** The head of an artwork attribute succeeds exactly when the attribute is an object
      whose `on_attribute` is an accepted pair and whose `sim_function` is an object (or
      null); it gives the attribute with the validated pair and that `sim_function`. */
  lemma ArtworkAttributeHeadSpec(arg: Json)
    ensures ArtworkAttributeHead(arg).Ok? <==> (
      arg.JObj? && NameAndType(Lookup(arg.fields, "on_attribute")).Ok? && IsObject(Lookup(arg.fields, "sim_function")))
    ensures ArtworkAttributeHead(arg).Ok? ==>
      ArtworkAttributeHead(arg).value ==
        (JObj(Put(arg.fields, "on_attribute", NameAndType(Lookup(arg.fields, "on_attribute")).value)),
         Lookup(arg.fields, "sim_function"))
  {
    if ArtworkAttributeHead(arg).Ok? {
      ArtworkAttributeHeadValues(arg);
    }
    if arg.JObj? && NameAndType(Lookup(arg.fields, "on_attribute")).Ok? && IsObject(Lookup(arg.fields, "sim_function")) {
      ArtworkAttributeHeadAccepted(arg);
    }
  }

  /** An object with an accepted pair and an object `sim_function` passes the head. */
  lemma ArtworkAttributeHeadAccepted(arg: Json)
    requires arg.JObj? && NameAndType(Lookup(arg.fields, "on_attribute")).Ok?
    requires IsObject(Lookup(arg.fields, "sim_function"))
    ensures ArtworkAttributeHead(arg).Ok?
  {
    var on := Lookup(arg.fields, "on_attribute");
    NameAndTypeSpec(on);
    var a1 := JObj(Put(arg.fields, "on_attribute", NameAndType(on).value));
    assert Lookup(a1.fields, "sim_function") == Lookup(arg.fields, "sim_function");
  }

  /** What a successful head of an artwork attribute gives. */
  lemma ArtworkAttributeHeadValues(arg: Json)
    requires ArtworkAttributeHead(arg).Ok?
    ensures arg.JObj? && NameAndType(Lookup(arg.fields, "on_attribute")).Ok? && IsObject(Lookup(arg.fields, "sim_function"))
    ensures ArtworkAttributeHead(arg).value ==
      (JObj(Put(arg.fields, "on_attribute", NameAndType(Lookup(arg.fields, "on_attribute")).value)),
       Lookup(arg.fields, "sim_function"))
  {
    var on := Lookup(arg.fields, "on_attribute");
    PutAt(arg.fields, "on_attribute", NameAndType(on).value, "sim_function");
  }

  /** An artwork attribute is accepted exactly when it is an object whose `on_attribute` is
      an accepted name-and-type pair and whose `sim_function` is an array of accepted
      algorithms or another object. */
  lemma ArtworkAttributeSpec(arg: Json)
    ensures ArtworkAttribute(arg).Ok? <==> (
      arg.JObj? && NameAndType(Lookup(arg.fields, "on_attribute")).Ok? &&
      var sf := Lookup(arg.fields, "sim_function");
      (sf.JArr? || sf.JObj?) && forall i :: 0 <= i < |Elements(sf)| ==> Algorithm(Elements(sf)[i]).Ok?)
  {
    ArtworkAttributeHeadSpec(arg);
  }

  /** An accepted artwork attribute holds the validated pair and, when its `sim_function`
      is an array, the validated algorithms. */
  lemma ArtworkAttributeValues(arg: Json)
    requires ArtworkAttribute(arg).Ok?
    ensures arg.JObj? && NameAndType(Lookup(arg.fields, "on_attribute")).Ok?
    ensures var r := ArtworkAttribute(arg).value;
      var sf := Lookup(arg.fields, "sim_function");
      Lookup(r.fields, "on_attribute") == NameAndType(Lookup(arg.fields, "on_attribute")).value &&
      MapResult(Elements(sf), Algorithm).Ok? &&
      Lookup(r.fields, "sim_function") == Staged(sf, MapResult(Elements(sf), Algorithm).value)
  {
    ArtworkAttributeHeadSpec(arg);
    var h := ArtworkAttributeHead(arg).value;
    assert ArtworkAttribute(arg).value == ArtworkAttributeBody(arg).value;
    assert ArtworkAttributeBody(arg) == ArtworkAttributeTail(h.0, h.1);
    ArtworkAttributeTailSpec(h.0, h.1, "on_attribute");
    assert Lookup(h.0.fields, "sim_function") == h.1;
  }

  /** The loop over `sim_function` writes the validated algorithms back into an array and
      leaves every other field as it was. */
  lemma ArtworkAttributeTailSpec(a1: Json, sf: Json, k: string)
    requires a1.JObj? && ArtworkAttributeTail(a1, sf).Ok?
    ensures MapResult(Elements(sf), Algorithm).Ok?
    ensures Lookup(ArtworkAttributeTail(a1, sf).value.fields, "sim_function") ==
      (if sf.JArr? then Staged(sf, MapResult(Elements(sf), Algorithm).value) else Lookup(a1.fields, "sim_function"))
    ensures k != "sim_function" ==> Lookup(ArtworkAttributeTail(a1, sf).value.fields, k) == Lookup(a1.fields, k)
  {
  }

  /** An accepted artwork attribute keeps every field other than the two it checks. */
  lemma ArtworkAttributeKeeps(arg: Json, k: string)
    requires ArtworkAttribute(arg).Ok? && k != "on_attribute" && k != "sim_function"
    ensures arg.JObj? && Lookup(ArtworkAttribute(arg).value.fields, k) == Lookup(arg.fields, k)
  {
    ArtworkAttributeHeadSpec(arg);
    var h := ArtworkAttributeHead(arg).value;
    ArtworkAttributeTailSpec(h.0, h.1, k);
    assert Lookup(h.0.fields, k) == Lookup(arg.fields, k);
  }

  /** The messages of a missing or non-object `on_attribute` read `arg.arg.name`: without
      an `arg` field the report is the TypeError of that read, not the intended message. */
  lemma ArtworkAttributeMessages(arg: Json)
    requires arg.JObj? && Lookup(arg.fields, "arg") == JUndef
    ensures !IsObject(Lookup(arg.fields, "on_attribute")) ==>
      ArtworkAttributeBody(arg) == Err(TypeErrorMessage("name"))
  {
  }

  /** A seed with object checks on the keys its stages loop over, all distinct: it is
      accepted exactly when it is an object whose checked collections are objects and whose
      loops all succeed; the collections then hold their loops' results and every other
      field is kept. */
  lemma SeedWithSpec(arg: Json, checks: seq<ObjectCheck>, stages: seq<(string, Json -> Result<Json>)>)
    requires forall i :: 0 <= i < |checks| ==> checks[i].key != "length"
    requires |checks| > 0 && |checks| == |stages| && DistinctStages(stages)
    requires forall i :: 0 <= i < |checks| ==> checks[i].key == stages[i].0
    ensures SeedWith(arg, checks, stages).Ok? <==> (arg.JObj? && forall i :: 0 <= i < |stages| ==>
      IsObject(Lookup(arg.fields, stages[i].0)) && Stage(Lookup(arg.fields, stages[i].0), stages[i].1).Ok?)
    ensures SeedWith(arg, checks, stages).Ok? ==> forall i :: 0 <= i < |stages| ==>
      var v := Lookup(arg.fields, stages[i].0);
      Stage(v, stages[i].1).Ok? &&
      Lookup(SeedWith(arg, checks, stages).value.fields, stages[i].0) == Staged(v, Stage(v, stages[i].1).value)
    ensures SeedWith(arg, checks, stages).Ok? ==> forall k :: Unstaged(stages, k) ==>
      Lookup(SeedWith(arg, checks, stages).value.fields, k) == Lookup(arg.fields, k)
  {
    if arg.JObj? {
      RunStagesSpec(arg, stages);
    }
  }

  /** A configuration seed is accepted exactly when it is an object whose five collections
      are objects and each collection's loop accepts every element. Each collection that is
      an array then holds its validated elements, and every other field is kept. */
  lemma ConfigurationSeedSpec(arg: Json)
    ensures ConfigurationSeed(arg).Ok? <==> (arg.JObj? && forall i :: 0 <= i < |SeedStages| ==>
      IsObject(Lookup(arg.fields, SeedStages[i].0)) && Stage(Lookup(arg.fields, SeedStages[i].0), SeedStages[i].1).Ok?)
    ensures ConfigurationSeed(arg).Ok? ==> forall i :: 0 <= i < |SeedStages| ==>
      var v := Lookup(arg.fields, SeedStages[i].0);
      Stage(v, SeedStages[i].1).Ok? &&
      Lookup(ConfigurationSeed(arg).value.fields, SeedStages[i].0) == Staged(v, Stage(v, SeedStages[i].1).value)
    ensures ConfigurationSeed(arg).Ok? ==> forall k :: Unstaged(SeedStages, k) ==>
      Lookup(ConfigurationSeed(arg).value.fields, k) == Lookup(arg.fields, k)
  {
    SeedKeys();
    SeedWithSpec(arg, SeedChecks, SeedStages);
  }

  /** The checks and the loops of a configuration seed name the same five distinct keys. */
  lemma SeedKeys()
    ensures |SeedChecks| == |SeedStages| == 5 && DistinctStages(SeedStages)
    ensures forall i :: 0 <= i < |SeedChecks| ==> SeedChecks[i].key == SeedStages[i].0 && SeedChecks[i].key != "length"
  {
  }

  /** The head of the data file succeeds exactly when it is an object whose four
      collections are objects, and gives those four collections. */
  lemma DataHeadSpec(arg: Json)
    ensures DataHead(arg).Ok? <==> (arg.JObj? && IsObject(Lookup(arg.fields, "communities")) &&
      IsObject(Lookup(arg.fields, "users")) && IsObject(Lookup(arg.fields, "similarity")) &&
      IsObject(Lookup(arg.fields, "artworks")))
    ensures DataHead(arg).Ok? ==> (DataHead(arg).value ==
      (Lookup(arg.fields, "communities"), Lookup(arg.fields, "users"), Lookup(arg.fields, "similarity"),
       Lookup(arg.fields, "artworks")))
  {
  }

  /** The artworks loop: it succeeds exactly when every artwork is accepted, writes them
      back and keeps every other field. */
  lemma DataArtworksSpec(o: Json, a: Json, fa: Json -> Result<Json>, k: string)
    requires o.JObj? && Lookup(o.fields, "artworks") == a
    ensures DataArtworks(o, a, fa).Ok? <==> Stage(a, fa).Ok?
    ensures DataArtworks(o, a, fa).Ok? ==> Lookup(DataArtworks(o, a, fa).value.fields, "artworks") == Staged(a, Stage(a, fa).value)
    ensures DataArtworks(o, a, fa).Ok? && k != "artworks" ==> Lookup(DataArtworks(o, a, fa).value.fields, k) == Lookup(o.fields, k)
  {
  }

  /** The edges loop and then the artworks loop. */
  lemma DataLinksSpec(o: Json, s: Json, a: Json, g: Json -> Result<Option<Json>>, fa: Json -> Result<Json>, k: string)
    requires o.JObj? && Lookup(o.fields, "similarity") == s && Lookup(o.fields, "artworks") == a
    ensures DataLinks(o, s, a, g, fa).Ok? <==> EdgeStage(s, g).Ok? && Stage(a, fa).Ok?
    ensures DataLinks(o, s, a, g, fa).Ok? ==> (
      var r := DataLinks(o, s, a, g, fa).value;
      EdgeStage(s, g).Ok? && Stage(a, fa).Ok? &&
      Lookup(r.fields, "similarity") == Staged(s, EdgeStage(s, g).value) &&
      Lookup(r.fields, "artworks") == Staged(a, Stage(a, fa).value) &&
      (k != "similarity" && k != "artworks" ==> Lookup(r.fields, k) == Lookup(o.fields, k)))
  {
    if EdgeStage(s, g).Ok? {
      var o' := WriteBack(o, "similarity", s, EdgeStage(s, g).value);
      WriteBackAt(o, "similarity", s, EdgeStage(s, g).value, "artworks");
      WriteBackAt(o, "similarity", s, EdgeStage(s, g).value, "similarity");
      WriteBackAt(o, "similarity", s, EdgeStage(s, g).value, k);
      DataArtworksSpec(o', a, fa, k);
      DataArtworksSpec(o', a, fa, "similarity");
    }
  }

  /** The users loop and then the edges and artworks loops. */
  lemma DataUsersSpec(o: Json, u: Json, s: Json, a: Json, fu: Json -> Result<Json>,
                      g: Json -> Result<Option<Json>>, fa: Json -> Result<Json>, k: string)
    requires o.JObj? && Lookup(o.fields, "users") == u && Lookup(o.fields, "similarity") == s &&
      Lookup(o.fields, "artworks") == a
    ensures DataUsers(o, u, s, a, fu, g, fa).Ok? <==> Stage(u, fu).Ok? && EdgeStage(s, g).Ok? && Stage(a, fa).Ok?
    ensures DataUsers(o, u, s, a, fu, g, fa).Ok? ==> (
      var r := DataUsers(o, u, s, a, fu, g, fa).value;
      Stage(u, fu).Ok? && EdgeStage(s, g).Ok? && Stage(a, fa).Ok? &&
      Lookup(r.fields, "users") == Staged(u, Stage(u, fu).value) &&
      Lookup(r.fields, "similarity") == Staged(s, EdgeStage(s, g).value) &&
      Lookup(r.fields, "artworks") == Staged(a, Stage(a, fa).value) &&
      (k != "users" && k != "similarity" && k != "artworks" ==> Lookup(r.fields, k) == Lookup(o.fields, k)))
  {
    if Stage(u, fu).Ok? {
      var o' := WriteBack(o, "users", u, Stage(u, fu).value);
      WriteBackAt(o, "users", u, Stage(u, fu).value, "artworks");
      WriteBackAt(o, "users", u, Stage(u, fu).value, "similarity");
      WriteBackAt(o, "users", u, Stage(u, fu).value, "users");
      WriteBackAt(o, "users", u, Stage(u, fu).value, k);
      DataLinksSpec(o', s, a, g, fa, k);
      DataLinksSpec(o', s, a, g, fa, "users");
    }
  }

  /** The four loops in order: communities, users, edges and artworks. */
  lemma DataListsSpec(o: Json, c: Json, u: Json, s: Json, a: Json, fc: Json -> Result<Json>, fu: Json -> Result<Json>,
                      g: Json -> Result<Option<Json>>, fa: Json -> Result<Json>, k: string)
    requires o.JObj? && Lookup(o.fields, "communities") == c && Lookup(o.fields, "users") == u &&
      Lookup(o.fields, "similarity") == s && Lookup(o.fields, "artworks") == a
    ensures DataLists(o, c, u, s, a, fc, fu, g, fa).Ok? <==>
      Stage(c, fc).Ok? && Stage(u, fu).Ok? && EdgeStage(s, g).Ok? && Stage(a, fa).Ok?
    ensures DataLists(o, c, u, s, a, fc, fu, g, fa).Ok? ==> (
      var r := DataLists(o, c, u, s, a, fc, fu, g, fa).value;
      Stage(c, fc).Ok? && Stage(u, fu).Ok? && EdgeStage(s, g).Ok? && Stage(a, fa).Ok? &&
      Lookup(r.fields, "communities") == Staged(c, Stage(c, fc).value) &&
      Lookup(r.fields, "users") == Staged(u, Stage(u, fu).value) &&
      Lookup(r.fields, "similarity") == Staged(s, EdgeStage(s, g).value) &&
      Lookup(r.fields, "artworks") == Staged(a, Stage(a, fa).value) &&
      (k != "communities" && k != "users" && k != "similarity" && k != "artworks" ==>
       Lookup(r.fields, k) == Lookup(o.fields, k)))
  {
    if Stage(c, fc).Ok? {
      var o' := WriteBack(o, "communities", c, Stage(c, fc).value);
      WriteBackAt(o, "communities", c, Stage(c, fc).value, "artworks");
      WriteBackAt(o, "communities", c, Stage(c, fc).value, "similarity");
      WriteBackAt(o, "communities", c, Stage(c, fc).value, "users");
      WriteBackAt(o, "communities", c, Stage(c, fc).value, "communities");
      WriteBackAt(o, "communities", c, Stage(c, fc).value, k);
      DataUsersSpec(o', u, s, a, fu, g, fa, k);
      DataUsersSpec(o', u, s, a, fu, g, fa, "communities");
    }
  }

  /** A data file is accepted exactly when it is an object whose four collections are
      objects and whose loops accept every community, user, edge and artwork. Each
      collection that is an array then holds its validated elements (for the edges, a
      hole where a self-loop was and otherwise the edge with its index as `id`). */
  lemma PerspectiveDataSpec(arg: Json)
    ensures PerspectiveData(arg).Ok? <==> (
      arg.JObj? &&
      var c, u, s, a := Lookup(arg.fields, "communities"), Lookup(arg.fields, "users"),
        Lookup(arg.fields, "similarity"), Lookup(arg.fields, "artworks");
      IsObject(c) && IsObject(u) && IsObject(s) && IsObject(a) &&
      Stage(c, Community).Ok? && Stage(u, User).Ok? && EdgeStage(s, Edge).Ok? && Stage(a, Artwork).Ok?)
    ensures PerspectiveData(arg).Ok? ==> (
      arg.JObj? &&
      var r := PerspectiveData(arg).value;
      var c, u, s, a := Lookup(arg.fields, "communities"), Lookup(arg.fields, "users"),
        Lookup(arg.fields, "similarity"), Lookup(arg.fields, "artworks");
      Stage(c, Community).Ok? && Stage(u, User).Ok? && EdgeStage(s, Edge).Ok? && Stage(a, Artwork).Ok? &&
      Lookup(r.fields, "communities") == Staged(c, Stage(c, Community).value) &&
      Lookup(r.fields, "users") == Staged(u, Stage(u, User).value) &&
      Lookup(r.fields, "similarity") == Staged(s, EdgeStage(s, Edge).value) &&
      Lookup(r.fields, "artworks") == Staged(a, Stage(a, Artwork).value))
  {
    DataHeadSpec(arg);
    if DataHead(arg).Ok? {
      var h := DataHead(arg).value;
      DataListsSpec(arg, h.0, h.1, h.2, h.3, Community, User, Edge, Artwork, "communities");
    }
  }

  /** An accepted data file keeps every field other than its four collections. */
  lemma PerspectiveDataKeeps(arg: Json, k: string)
    requires PerspectiveData(arg).Ok?
    requires k != "communities" && k != "users" && k != "similarity" && k != "artworks"
    ensures arg.JObj? && PerspectiveData(arg).value.JObj? &&
      Lookup(PerspectiveData(arg).value.fields, k) == Lookup(arg.fields, k)
  {
    DataHeadSpec(arg);
    var h := DataHead(arg).value;
    DataListsSpec(arg, h.0, h.1, h.2, h.3, Community, User, Edge, Artwork, k);
  }
}
