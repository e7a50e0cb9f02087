/** The validators of `perspectiveValidation.ts`: the file listing every perspective's
    details and the older format of a perspective's network data. As in `ValidateFiles`,
    each validator returns the rewritten argument or the message it throws. The fields a
    record needs are given as field tables (`FieldCheck`s) applied in source order. */
module PerspectiveValidation {
  import opened Wrappers
  import opened Strings
  import opened Json
  import opened Validation

  // The messages the validators throw.
  const AttNameOfTheOnAttributeIsUndefined := "Att_name of the OnAttribute is undefined"
  const AttTypeOfTheOnAttributeIsUndefined := "Att_type of the OnAttribute is undefined"
  const OnAttributeIsNotValid := "OnAttribute is not valid: "
  const AlgorithmIsNotValid := "Algorithm is not valid: "
  const NameOfTheAlgorithmIsUndefined := "Name of the algorithm is undefined"
  const ParamsOfTheAlgorithm := "Params of the algorithm ("
  const IsUndefinedTail := ") is undefined"
  const IsNotAnObjectTail := ") is not an object"
  const ParamsOfTheSimilarityFunction := "Params of the Similarity function ("
  const OnAttributeOfTheSimilarityFunction := "onAttribute of the Similarity function ("
  const WeightOfTheSimilarityFunction := "Weight of the Similarity function ("
  const IsNotANumberTail := ") is not a number"
  const SimilarityFunctionIsNotValid := "Similarity function is not valid: "
  const NameOfTheSimilarityFunctionIsUndefined := "Name of the Similarity function is undefined"
  const ASimFunctionOfThePerspective := "A Sim function of the perspective ("
  const NameOfThePerspective := "Name of the perspective ("
  const AlgorithmsOfThePerspective := "Algorithms of the perspective ("
  const SimilarityFunctionsOfThePerspective := "Similarity functions of the perspective ("
  const IDOfThePerspectiveIsUndefined := "ID of the perspective is undefined"
  const IDOfThePerspectiveNaNIsNotANumber := "ID of the perspective (NaN) is not a number"
  const PerspectiveInfoIsNotValid := "PerspectiveInfo is not valid: "
  const APerspectiveOfAllperspectivesFileIsUndefined := "A perspective of Allperspectives file is undefined"
  const APerspectiveOfAllperspectivesFileIsNotAnObject := "A perspective of Allperspectives file is not an object"
  const AllPerspectivesFileIsUndefined := "All perspectives file is undefined"
  const AllPerspectivesFileIsNotAnObject := "All perspectives file is not an object"
  const AllPerspectivesFileDoesNotHaveAnyPerspective := "All perspectives file does not have any perspective"
  const AllPerspectivesFileIsNotValid := "All perspectives file is not valid: "
  const CommunityTypeOfTheCommunity := "Community-type of the community ("
  const NameOfTheCommunity := "Name of the community ("
  const ExplanationOfTheCommunity := "Explanation of the community ("
  const UsersOfTheCommunity := "Users of the community ("
  const IdIsUndefined := "Id is undefined"
  const IDOfTheCommunityNaNIsNotANumber := "ID of the community (NaN) is not a number"
  const CommunityDataIsNotValid := "Community data is not valid: "
  const LabelOfTheUser := "Label of the user ("
  const GroupOfTheUser := "Group of the user ("
  const ExplicitCommunityOfTheUser := "Explicit community of the user ("
  const IsNotAnObjectThereMayNotBeAnyExplicitCommunityValuesTail := ") is not an object. There may not be any explicit community values"
  const UserDataIsNotValid := "User data is not valid: "
  const U2OfTheEdgeWithValue := "U2 of the edge with value ("
  const U1OfTheEdgeWithValue := "U1 of the edge with value ("
  const ValueIsUndefined := "Value is undefined"
  const ValueIsNotANumber := "Value is not a number"
  const EdgeDataIsNotValid := "Edge data is not valid: "
  const EdgeDataIsNotValidValueIsNotANumber := "Edge data is not valid: Value is not a number"
  const CommunitiesIsUndefined := "Communities is undefined"
  const CommunitiesIsNotAnObject := "Communities is not an object"
  const UsersIsUndefined := "Users is undefined"
  const UsersIsNotAnObject := "Users is not an object"
  const SimilarityIsUndefined := "Similarity is undefined"
  const SimilarityIsNotAnObject := "Similarity is not an object"
  const PerspectiveNetworkDataIsUndefined := "Perspective network data is undefined"
  const PerspectiveNetworkDataFileIsNotValid := "Perspective network data file is not valid: "

  // ================================================================ all perspectives file

  const OnAttributeChecks :=
    Then(StringField("att_name", AttNameOfTheOnAttributeIsUndefined),
    Then(StringField("att_type", AttTypeOfTheOnAttributeIsUndefined), Done))

  /** `isOnAttributeValid`. */
  function OnAttribute(arg: Json): Result<Json>
  {
    Wrap(OnAttributeIsNotValid, CheckFields(arg, OnAttributeChecks))
  }

  /** An attribute is accepted exactly when `att_name` and `att_type` are present; both
      then hold strings. */
  lemma OnAttributeSpec(arg: Json)
    ensures OnAttribute(arg).Ok? <==> arg.JObj? && Field(arg, "att_name") != JUndef && Field(arg, "att_type") != JUndef
    ensures OnAttribute(arg).Ok? ==> var r := OnAttribute(arg).value;
      r.JObj? && Field(r, "att_name") == AsString(Field(arg, "att_name")) &&
      Field(r, "att_type") == AsString(Field(arg, "att_type"))
  {
    var cs := OnAttributeChecks;
    var o1 := ApplyCheck(arg, cs.check);
    if o1.Ok? {
      assert CheckFields(arg, cs) == CheckFields(o1.value, cs.rest);
      var o2 := ApplyCheck(o1.value, cs.rest.check);
      assert CheckFields(o1.value, cs.rest) == o2;
    }
  }

  /** `isAlgorithmValid`: a name coerced to a string and an object `params`. */
  function Algorithm(arg: Json): (r: Result<Json>)
    ensures r.Ok? <==> arg.JObj? && Field(arg, "name") != JUndef && IsObject(Field(arg, "params"))
    ensures r.Ok? ==> r.value.JObj? && Field(r.value, "name") == AsString(Field(arg, "name")) &&
                      Field(r.value, "params") == Field(arg, "params")
  {
    Wrap(AlgorithmIsNotValid,
      var a1 :- ApplyCheck(arg, StringField("name", NameOfTheAlgorithmIsUndefined));
      var name := Field(a1, "name").s;
      ApplyCheck(a1, ObjectField("params", ParamsOfTheAlgorithm + name + IsUndefinedTail,
        ParamsOfTheAlgorithm + name + IsNotAnObjectTail)))
  }

  /** The fields of a similarity function checked after its name, in order. */
  function SimilarityChecks(name: string): Checks
  {
    Then(ObjectField("params", ParamsOfTheSimilarityFunction + name + IsUndefinedTail,
      ParamsOfTheSimilarityFunction + name + IsNotAnObjectTail),
    Then(ObjectField("on_attribute", OnAttributeOfTheSimilarityFunction + name + IsUndefinedTail,
      OnAttributeOfTheSimilarityFunction + name + IsNotAnObjectTail),
    Then(NumberField("weight", WeightOfTheSimilarityFunction + name + IsUndefinedTail,
      WeightOfTheSimilarityFunction + name + IsNotANumberTail), Done)))
  }

  lemma SimilarityTable(a: Json, name: string)
    requires a.JObj?
    ensures CheckFields(a, SimilarityChecks(name)).Ok? <==>
      IsObject(Field(a, "params")) && IsObject(Field(a, "on_attribute")) &&
      Field(a, "weight") != JUndef && ToNum(Field(a, "weight")).Some?
    ensures CheckFields(a, SimilarityChecks(name)).Ok? ==> var r := CheckFields(a, SimilarityChecks(name)).value;
      r.JObj? && Field(r, "name") == Field(a, "name") && Field(r, "on_attribute") == Field(a, "on_attribute") &&
      Field(r, "weight") == JNum(ToNum(Field(a, "weight")).value)
  {
    var cs := SimilarityChecks(name);
    var o1 := ApplyCheck(a, cs.check);
    if o1.Ok? {
      assert CheckFields(a, cs) == CheckFields(o1.value, cs.rest);
      var o2 := ApplyCheck(o1.value, cs.rest.check);
      if o2.Ok? {
        assert CheckFields(o1.value, cs.rest) == CheckFields(o2.value, cs.rest.rest);
        var o3 := ApplyCheck(o2.value, cs.rest.rest.check);
        assert CheckFields(o2.value, cs.rest.rest) == o3;
      }
    }
  }

  /** A similarity function after its name check: the table, then the attribute it is
      computed on is validated in place. */
  function SimilarityRest(a: Json): Result<Json>
  {
    var a2 :- CheckFields(a, SimilarityChecks(ToStr(Field(a, "name"))));
    var on :- OnAttribute(Field(a2, "on_attribute"));
    SetProp(a2, "on_attribute", on)
  }

  lemma SimilarityRestSpec(a: Json)
    requires a.JObj?
    ensures SimilarityRest(a).Ok? <==>
      IsObject(Field(a, "params")) && OnAttribute(Field(a, "on_attribute")).Ok? &&
      Field(a, "weight") != JUndef && ToNum(Field(a, "weight")).Some?
    ensures SimilarityRest(a).Ok? ==> var r := SimilarityRest(a).value;
      r.JObj? && Field(r, "name") == Field(a, "name") &&
      Field(r, "weight") == JNum(ToNum(Field(a, "weight")).value) &&
      Field(r, "on_attribute") == OnAttribute(Field(a, "on_attribute")).value
  {
    SimilarityTable(a, ToStr(Field(a, "name")));
    OnAttributeSpec(Field(a, "on_attribute"));
  }

  /** `isSimilarityFunctionValid`. */
  function SimilarityFunction(arg: Json): Result<Json>
  {
    Wrap(SimilarityFunctionIsNotValid,
      var a1 :- ApplyCheck(arg, StringField("name", NameOfTheSimilarityFunctionIsUndefined));
      SimilarityRest(a1))
  }

  /** Since `checkSimilarityFunctions` is on, a similarity function is accepted exactly
      when it has a name, object `params`, an `on_attribute` with `att_name` and
      `att_type`, and a weight that converts to a number. */
  lemma SimilarityFunctionSpec(arg: Json)
    ensures SimilarityFunction(arg).Ok? <==>
      arg.JObj? && Field(arg, "name") != JUndef && IsObject(Field(arg, "params")) &&
      OnAttribute(Field(arg, "on_attribute")).Ok? &&
      Field(arg, "weight") != JUndef && ToNum(Field(arg, "weight")).Some?
    ensures SimilarityFunction(arg).Ok? ==> var r := SimilarityFunction(arg).value;
      r.JObj? && Field(r, "name") == AsString(Field(arg, "name")) &&
      Field(r, "weight") == JNum(ToNum(Field(arg, "weight")).value) &&
      Field(r, "on_attribute") == OnAttribute(Field(arg, "on_attribute")).value
  {
    var a1 := ApplyCheck(arg, StringField("name", NameOfTheSimilarityFunctionIsUndefined));
    if a1.Ok? {
      SimilarityRestSpec(a1.value);
    }
  }

  /** The body of the similarity-function loop of `isPerspectiveInfoValid` for one
      element: its `sim_function` must be an object, and is validated in place. */
  function SimEntry(id: string, x: Json): (r: Result<Json>)
    ensures r.Ok? <==> x.JObj? && SimilarityFunction(Field(x, "sim_function")).Ok?
    ensures r.Ok? ==> r.value == JObj(Put(x.fields, "sim_function", SimilarityFunction(Field(x, "sim_function")).value))
  {
    var s :- Prop(x, "sim_function");
    if s.JUndef? then Err(ASimFunctionOfThePerspective + id + IsUndefinedTail)
    else if !IsObject(s) then Err(ASimFunctionOfThePerspective + id + IsNotAnObjectTail)
    else
      var s2 :- SimilarityFunction(s);
      SetProp(x, "sim_function", s2)
  }

  /** The fields of a perspective checked after its id, before its algorithm is
      validated. */
  function InfoChecks(id: string): Checks
  {
    Then(StringField("name", NameOfThePerspective + id + IsUndefinedTail),
    Then(ObjectField("algorithm", AlgorithmsOfThePerspective + id + IsUndefinedTail,
      AlgorithmsOfThePerspective + id + IsNotAnObjectTail), Done))
  }

  lemma InfoTable(a: Json, id: string)
    requires a.JObj?
    ensures CheckFields(a, InfoChecks(id)).Ok? <==> Field(a, "name") != JUndef && IsObject(Field(a, "algorithm"))
    ensures CheckFields(a, InfoChecks(id)).Ok? ==> var r := CheckFields(a, InfoChecks(id)).value;
      r.JObj? && Field(r, "id") == Field(a, "id") && Field(r, "name") == AsString(Field(a, "name")) &&
      Field(r, "algorithm") == Field(a, "algorithm") &&
      Field(r, "similarity_functions") == Field(a, "similarity_functions")
  {
    var cs := InfoChecks(id);
    var o1 := ApplyCheck(a, cs.check);
    if o1.Ok? {
      assert CheckFields(a, cs) == CheckFields(o1.value, cs.rest);
      var o2 := ApplyCheck(o1.value, cs.rest.check);
      assert CheckFields(o1.value, cs.rest) == o2;
    }
  }

  /** The algorithm validated and written back, and an object of similarity functions
      required. */
  function InfoAlgorithm(a: Json, id: string): (r: Result<Json>)
    requires a.JObj?
    ensures r.Ok? <==> Algorithm(Field(a, "algorithm")).Ok? && IsObject(Field(a, "similarity_functions"))
    ensures r.Ok? ==> r.value == JObj(Put(a.fields, "algorithm", Algorithm(Field(a, "algorithm")).value))
  {
    var algo :- Algorithm(Field(a, "algorithm"));
    // The check reads a field the assignment of `algorithm` does not touch.
    var _ :- RequireObject(a, "similarity_functions", SimilarityFunctionsOfThePerspective + id + IsUndefinedTail,
      SimilarityFunctionsOfThePerspective + id + IsNotAnObjectTail);
    Ok(JObj(Put(a.fields, "algorithm", algo)))
  }

  /** A perspective after its id check, up to its similarity-function loop. */
  function InfoRest(a: Json, id: string): Result<Json>
  {
    var a2 :- CheckFields(a, InfoChecks(id));
    InfoAlgorithm(a2, id)
  }

  lemma InfoRestSpec(a: Json, id: string)
    requires a.JObj?
    ensures InfoRest(a, id).Ok? <==>
      Field(a, "name") != JUndef && Algorithm(Field(a, "algorithm")).Ok? && IsObject(Field(a, "similarity_functions"))
    ensures InfoRest(a, id).Ok? ==> var p := InfoRest(a, id).value;
      p.JObj? && Field(p, "id") == Field(a, "id") && Field(p, "name") == AsString(Field(a, "name")) &&
      Field(p, "algorithm") == Algorithm(Field(a, "algorithm")).value &&
      Field(p, "similarity_functions") == Field(a, "similarity_functions")
  {
    InfoTable(a, id);
    var c := CheckFields(a, InfoChecks(id));
    if c.Ok? {
      InfoAlgorithmFields(c.value, id);
    }
  }

  lemma InfoAlgorithmFields(a2: Json, id: string)
    requires a2.JObj?
    ensures InfoAlgorithm(a2, id).Ok? ==> var p := InfoAlgorithm(a2, id).value;
      p.JObj? && Field(p, "id") == Field(a2, "id") && Field(p, "name") == Field(a2, "name") &&
      Field(p, "algorithm") == Algorithm(Field(a2, "algorithm")).value &&
      Field(p, "similarity_functions") == Field(a2, "similarity_functions")
  {
    var algo := Algorithm(Field(a2, "algorithm"));
    if algo.Ok? && IsObject(Field(a2, "similarity_functions")) {
      PutAt(a2.fields, "algorithm", algo.value, "similarity_functions");
      PutAt(a2.fields, "algorithm", algo.value, "id");
      PutAt(a2.fields, "algorithm", algo.value, "name");
    }
  }

  /** `isPerspectiveInfoValid` up to its similarity-function loop. */
  function InfoHead(arg: Json): Result<Json>
  {
    var a1 :- ApplyCheck(arg, IdCheck);
    InfoRest(a1, ToStr(Field(a1, "id")))
  }

  /** A perspective gets past its head exactly when its id converts to a number, it has
      a name, and its algorithm and similarity functions are valid objects; the id is
      then a number, the name a string and the algorithm validated. */
  lemma InfoHeadSpec(arg: Json)
    ensures InfoHead(arg).Ok? <==>
      arg.JObj? && Field(arg, "id") != JUndef && ToNum(Field(arg, "id")).Some? && Field(arg, "name") != JUndef &&
      Algorithm(Field(arg, "algorithm")).Ok? && IsObject(Field(arg, "similarity_functions"))
    ensures InfoHead(arg).Ok? ==> var p := InfoHead(arg).value;
      p.JObj? && Field(p, "id") == JNum(ToNum(Field(arg, "id")).value) &&
      Field(p, "name") == AsString(Field(arg, "name")) &&
      Field(p, "algorithm") == Algorithm(Field(arg, "algorithm")).value &&
      Field(p, "similarity_functions") == Field(arg, "similarity_functions")
  {
    var a1 := ApplyCheck(arg, IdCheck);
    if a1.Ok? {
      IdCheckKeeps(arg);
      assert InfoHead(arg) == InfoRest(a1.value, ToStr(Field(a1.value, "id")));
      InfoRestSpec(a1.value, ToStr(Field(a1.value, "id")));
    }
  }

  const IdCheck := NumberField("id", IDOfThePerspectiveIsUndefined, IDOfThePerspectiveNaNIsNotANumber)

  /** The id check touches no other field. */
  lemma IdCheckKeeps(arg: Json)
    requires ApplyCheck(arg, IdCheck).Ok?
    ensures var b := ApplyCheck(arg, IdCheck).value;
      b.JObj? && Field(b, "id") == JNum(ToNum(Field(arg, "id")).value) &&
      Field(b, "name") == Field(arg, "name") && Field(b, "algorithm") == Field(arg, "algorithm") &&
      Field(b, "similarity_functions") == Field(arg, "similarity_functions")
  {
  }

  function InfoBody(arg: Json): Result<Json>
  {
    var a :- InfoHead(arg);
    InfoLoop(a)
  }

  /** The similarity-function loop of `isPerspectiveInfoValid`. */
  function InfoLoop(a: Json): Result<Json>
    requires a.JObj?
  {
    var sf := Field(a, "similarity_functions");
    var xs :- Loopable(sf);
    var ys :- MapResult(xs, x => SimEntry(ToStr(Field(a, "id")), x));
    Ok(WriteBack(a, "similarity_functions", sf, ys))
  }

  /** `isPerspectiveInfoValid`. */
  function PerspectiveInfo(arg: Json): Result<Json>
  {
    Wrap(PerspectiveInfoIsNotValid, InfoBody(arg))
  }

  method ValidatePerspectiveInfo(arg: Json) returns (r: Result<Json>)
    ensures r == PerspectiveInfo(arg)
  {
    var head := InfoHead(arg);
    InfoHeadSpec(arg);
    if head.Err? || Field(head.value, "similarity_functions").JNull? {
      return PerspectiveInfo(arg);
    }
    var a := head.value;
    var sf := Field(a, "similarity_functions");
    var id := ToStr(Field(a, "id"));
    var ys := MapEach(Elements(sf), x => SimEntry(id, x));
    if ys.Err? {
      return Err(PerspectiveInfoIsNotValid + ys.error);
    }
    return Ok(WriteBack(a, "similarity_functions", sf, ys.value));
  }

  /** Every accepted perspective has a numeric id, a string name and a validated
      algorithm, and each of its similarity functions was validated. */
  lemma AcceptedPerspective(arg: Json)
    requires PerspectiveInfo(arg).Ok?
    ensures arg.JObj? && ToNum(Field(arg, "id")).Some? && Algorithm(Field(arg, "algorithm")).Ok?
    ensures var p := PerspectiveInfo(arg).value;
      p.JObj? && Field(p, "id") == JNum(ToNum(Field(arg, "id")).value) &&
      Field(p, "name") == AsString(Field(arg, "name")) &&
      Field(p, "algorithm") == Algorithm(Field(arg, "algorithm")).value
    ensures var sf := Field(arg, "similarity_functions");
      forall i :: 0 <= i < |Elements(sf)| ==> SimilarityFunction(Field(Elements(sf)[i], "sim_function")).Ok?
  {
    assert InfoBody(arg).Ok?;
    InfoHeadSpec(arg);
    var a := InfoHead(arg).value;
    assert InfoBody(arg) == InfoLoop(a);
    InfoLoopParts(a);
  }

  /** The similarity-function loop of an accepted perspective. */
  lemma InfoLoopParts(a: Json)
    requires a.JObj? && InfoLoop(a).Ok?
    ensures var p := InfoLoop(a).value;
      p.JObj? && Field(p, "id") == Field(a, "id") && Field(p, "name") == Field(a, "name") &&
      Field(p, "algorithm") == Field(a, "algorithm")
    ensures var sf := Field(a, "similarity_functions");
      forall i :: 0 <= i < |Elements(sf)| ==> SimilarityFunction(Field(Elements(sf)[i], "sim_function")).Ok?
  {
    var sf := Field(a, "similarity_functions");
    var f := x => SimEntry(ToStr(Field(a, "id")), x);
    var ys := MapResult(Elements(sf), f);
    assert ys.Ok? && InfoLoop(a).value == WriteBack(a, "similarity_functions", sf, ys.value);
    WriteBackKeeps(a, sf, ys.value);
    assert forall i :: 0 <= i < |Elements(sf)| ==> f(Elements(sf)[i]).Ok?;
  }

  lemma WriteBackKeeps(a: Json, sf: Json, ys: seq<Json>)
    requires a.JObj?
    ensures var p := WriteBack(a, "similarity_functions", sf, ys);
      Field(p, "id") == Field(a, "id") && Field(p, "name") == Field(a, "name") &&
      Field(p, "algorithm") == Field(a, "algorithm")
  {
  }

  /** The body of the loop of `validateAllPerspectivesDetailsJSON` for one element. */
  function DetailsEntry(e: Json): (r: Result<Json>)
    ensures e.JUndef? || !IsObject(e) ==> r.Err?
  {
    if e.JUndef? then Err(APerspectiveOfAllperspectivesFileIsUndefined)
    else if !IsObject(e) then Err(APerspectiveOfAllperspectivesFileIsNotAnObject)
    else PerspectiveInfo(e)
  }

  method ValidateDetailsEntry(e: Json) returns (r: Result<Json>)
    ensures r == DetailsEntry(e)
  {
    if e.JUndef? || !IsObject(e) {
      return DetailsEntry(e);
    }
    r := ValidatePerspectiveInfo(e);
  }

  /** The checks before the loop: a defined object whose `length` is present and
      positive. */
  function DetailsHead(arg: Json): (r: Result<Json>)
    ensures r.Ok? ==> r.value == arg
    ensures arg.JUndef? || !IsObject(arg) ==> r.Err?
    ensures arg.JArr? ==> (r.Ok? <==> |arg.items| > 0)
  {
    if arg.JUndef? then Err(AllPerspectivesFileIsUndefined)
    else if !IsObject(arg) then Err(AllPerspectivesFileIsNotAnObject)
    else
      var len :- Prop(arg, "length");
      if len.JUndef? || AtMostZero(len) then Err(AllPerspectivesFileDoesNotHaveAnyPerspective)
      else Ok(arg)
  }

  function DetailsBody(arg: Json): Result<Json>
  {
    var a :- DetailsHead(arg);
    if a.JArr? then
      var items :- MapResult(a.items, DetailsEntry);
      Ok(JArr(items))
    else Ok(a)
  }

  /** `validateAllPerspectivesDetailsJSON(arg)`. */
  function AllPerspectivesDetails(arg: Json): Result<Json>
  {
    Wrap(AllPerspectivesFileIsNotValid, DetailsBody(arg))
  }

  /** The perspective loop of `validateAllPerspectivesDetailsJSON`. */
  method ValidateDetailsList(items: seq<Json>) returns (r: Result<seq<Json>>)
    ensures r == MapResult(items, DetailsEntry)
  {
    var out: seq<Json> := [];
    var i := 0;
    while i < |items|
      invariant 0 <= i <= |items|
      invariant MapResult(items[..i], DetailsEntry) == Ok(out)
    {
      var x := ValidateDetailsEntry(items[i]);
      MapResultStep(items, DetailsEntry, i);
      if x.Err? {
        return Err(x.error);
      }
      out := out + [x.value];
      i := i + 1;
    }
    assert items[..i] == items;
    return Ok(out);
  }

  method ValidateAllPerspectivesDetails(arg: Json) returns (r: Result<Json>)
    ensures r == AllPerspectivesDetails(arg)
  {
    if !arg.JArr? || |arg.items| == 0 {
      return AllPerspectivesDetails(arg);
    }
    var items := ValidateDetailsList(arg.items);
    if items.Err? {
      return Err(AllPerspectivesFileIsNotValid + items.error);
    }
    return Ok(JArr(items.value));
  }

  /** Unlike the perspective ids file, the details file is refused when it is undefined,
      no object, or an empty list. */
  lemma DetailsRefusesEmpty(arg: Json)
    requires arg.JUndef? || !IsObject(arg) || arg == JArr([])
    ensures AllPerspectivesDetails(arg).Err?
  {
  }

  /** An accepted list keeps its length, and each entry is an accepted perspective. */
  lemma AcceptedDetails(arg: Json)
    requires arg.JArr? && AllPerspectivesDetails(arg).Ok?
    ensures |arg.items| > 0
    ensures var r := AllPerspectivesDetails(arg).value;
      r.JArr? && |r.items| == |arg.items| &&
      forall i :: 0 <= i < |arg.items| ==> r.items[i] == PerspectiveInfo(arg.items[i]).value
  {
    assert MapResult(arg.items, DetailsEntry).Ok?;
    assert forall i :: 0 <= i < |arg.items| ==> DetailsEntry(arg.items[i]).Ok?;
  }

  // ================================================================ perspective data file

  /** The fields of a community checked after its id. */
  function CommunityChecks(id: string): Checks
  {
    Then(StringField("community-type", CommunityTypeOfTheCommunity + id + IsUndefinedTail),
    Then(StringField("name", NameOfTheCommunity + id + IsUndefinedTail),
    Then(StringField("explanation", ExplanationOfTheCommunity + id + IsUndefinedTail),
    Then(ObjectField("users", UsersOfTheCommunity + id + IsUndefinedTail,
      UsersOfTheCommunity + id + IsNotAnObjectTail), Done))))
  }

  function CommunityBody(arg: Json): Result<Json>
  {
    var a1 :- ApplyCheck(arg, NumberField("id", IdIsUndefined, IDOfTheCommunityNaNIsNotANumber));
    CheckFields(a1, CommunityChecks(ToStr(Field(a1, "id"))))
  }

  /** `isCommunityDataValid` of this format. */
  function Community(arg: Json): Result<Json>
  {
    Wrap(CommunityDataIsNotValid, CommunityBody(arg))
  }

  lemma CommunityTable(a: Json, id: string)
    requires a.JObj?
    ensures CheckFields(a, CommunityChecks(id)).Ok? <==>
      Field(a, "community-type") != JUndef && Field(a, "name") != JUndef &&
      Field(a, "explanation") != JUndef && IsObject(Field(a, "users"))
    ensures CheckFields(a, CommunityChecks(id)).Ok? ==> var r := CheckFields(a, CommunityChecks(id)).value;
      r.JObj? && Field(r, "id") == Field(a, "id") &&
      Field(r, "community-type") == AsString(Field(a, "community-type")) &&
      Field(r, "name") == AsString(Field(a, "name")) &&
      Field(r, "explanation") == AsString(Field(a, "explanation")) &&
      Field(r, "users") == Field(a, "users")
  {
    var cs := CommunityChecks(id);
    var o1 := ApplyCheck(a, cs.check);
    if o1.Ok? {
      assert CheckFields(a, cs) == CheckFields(o1.value, cs.rest);
      var o2 := ApplyCheck(o1.value, cs.rest.check);
      if o2.Ok? {
        assert CheckFields(o1.value, cs.rest) == CheckFields(o2.value, cs.rest.rest);
        var o3 := ApplyCheck(o2.value, cs.rest.rest.check);
        if o3.Ok? {
          assert CheckFields(o2.value, cs.rest.rest) == CheckFields(o3.value, cs.rest.rest.rest);
          var o4 := ApplyCheck(o3.value, cs.rest.rest.rest.check);
          assert CheckFields(o3.value, cs.rest.rest.rest) == o4;
        }
      }
    }
  }

  /** A community is accepted exactly when its id converts to a number and it has a
      community type, a name, an explanation and an object of users; the id is then a
      number and the three texts are strings. */
  lemma CommunitySpec(arg: Json)
    ensures Community(arg).Ok? <==>
      arg.JObj? && Field(arg, "id") != JUndef && ToNum(Field(arg, "id")).Some? &&
      Field(arg, "community-type") != JUndef && Field(arg, "name") != JUndef &&
      Field(arg, "explanation") != JUndef && IsObject(Field(arg, "users"))
    ensures Community(arg).Ok? ==> var r := Community(arg).value;
      r.JObj? && Field(r, "id") == JNum(ToNum(Field(arg, "id")).value) &&
      Field(r, "community-type") == AsString(Field(arg, "community-type")) &&
      Field(r, "name") == AsString(Field(arg, "name")) &&
      Field(r, "explanation") == AsString(Field(arg, "explanation"))
  {
    var a1 := ApplyCheck(arg, NumberField("id", IdIsUndefined, IDOfTheCommunityNaNIsNotANumber));
    if a1.Ok? {
      CommunityTable(a1.value, ToStr(Field(a1.value, "id")));
    }
  }

  /** The fields of a user checked after its id. */
  function UserChecks(id: string): Checks
  {
    Then(StringField("label", LabelOfTheUser + id + IsUndefinedTail),
    Then(NumberField("group", GroupOfTheUser + id + IsUndefinedTail, GroupOfTheUser + id + IsNotANumberTail), Done))
  }

  lemma UserTable(a: Json, id: string)
    requires a.JObj?
    ensures CheckFields(a, UserChecks(id)).Ok? <==>
      Field(a, "label") != JUndef && Field(a, "group") != JUndef && ToNum(Field(a, "group")).Some?
    ensures CheckFields(a, UserChecks(id)).Ok? ==> var r := CheckFields(a, UserChecks(id)).value;
      r.JObj? && Field(r, "id") == Field(a, "id") && Field(r, "label") == AsString(Field(a, "label")) &&
      Field(r, "group") == JNum(ToNum(Field(a, "group")).value) &&
      Field(r, "explicit_community") == Field(a, "explicit_community")
  {
    var cs := UserChecks(id);
    var o1 := ApplyCheck(a, cs.check);
    if o1.Ok? {
      assert CheckFields(a, cs) == CheckFields(o1.value, cs.rest);
      var o2 := ApplyCheck(o1.value, cs.rest.check);
      assert CheckFields(o1.value, cs.rest) == o2;
      ApplyCheckAt(a, cs.check, "group");
      if o2.Ok? {
        ApplyCheckAt(o1.value, cs.rest.check, "id");
        ApplyCheckAt(o1.value, cs.rest.check, "label");
        ApplyCheckAt(o1.value, cs.rest.check, "explicit_community");
        ApplyCheckAt(a, cs.check, "id");
        ApplyCheckAt(a, cs.check, "label");
        ApplyCheckAt(a, cs.check, "explicit_community");
        ApplyCheckAt(o1.value, cs.rest.check, "group");
      }
    }
  }

  /** A user after its label and group checks: `group` moves to `implicit_community`,
      then an object `explicit_community` is required. */
  function UserCommunities(a: Json, id: string): (r: Result<Json>)
    requires a.JObj?
    ensures r.Ok? <==> IsObject(Field(a, "explicit_community"))
    ensures r.Ok? ==> r.value == JObj(Move(a.fields, "group", "implicit_community"))
  {
    ApplyCheck(JObj(Move(a.fields, "group", "implicit_community")),
      ObjectField("explicit_community", ExplicitCommunityOfTheUser + id + IsUndefinedTail,
        ExplicitCommunityOfTheUser + id + IsNotAnObjectThereMayNotBeAnyExplicitCommunityValuesTail))
  }

  /** A user after its id check. */
  function UserRest(a: Json): Result<Json>
  {
    var id := ToStr(Field(a, "id"));
    var a2 :- CheckFields(a, UserChecks(id));
    UserCommunities(a2, id)
  }

  lemma UserRestSpec(a: Json)
    requires a.JObj?
    ensures UserRest(a).Ok? <==>
      Field(a, "label") != JUndef && Field(a, "group") != JUndef && ToNum(Field(a, "group")).Some? &&
      IsObject(Field(a, "explicit_community"))
    ensures UserRest(a).Ok? ==> var r := UserRest(a).value;
      r.JObj? && Field(r, "id") == Field(a, "id") && Field(r, "label") == AsString(Field(a, "label")) &&
      Field(r, "implicit_community") == JNum(ToNum(Field(a, "group")).value) && Field(r, "group") == JUndef
  {
    UserTable(a, ToStr(Field(a, "id")));
  }

  function UserBody(arg: Json): Result<Json>
  {
    var a1 :- ApplyCheck(arg, UserIdCheck);
    UserRest(a1)
  }

  /** `isUserDataValid` of this format. */
  function User(arg: Json): Result<Json>
  {
    Wrap(UserDataIsNotValid, UserBody(arg))
  }

  /** A user is accepted exactly when it has an id, a label, a numeric group and an
      object `explicit_community` (the other format defaults a missing one); `group`
      then lives on as `implicit_community`. */
  lemma UserSpec(arg: Json)
    ensures User(arg).Ok? <==>
      arg.JObj? && Field(arg, "id") != JUndef && Field(arg, "label") != JUndef &&
      Field(arg, "group") != JUndef && ToNum(Field(arg, "group")).Some? &&
      IsObject(Field(arg, "explicit_community"))
    ensures User(arg).Ok? ==> var r := User(arg).value;
      r.JObj? && Field(r, "id") == AsString(Field(arg, "id")) && Field(r, "label") == AsString(Field(arg, "label")) &&
      Field(r, "implicit_community") == JNum(ToNum(Field(arg, "group")).value) && Field(r, "group") == JUndef
  {
    var a1 := ApplyCheck(arg, UserIdCheck);
    if a1.Ok? {
      UserIdCheckKeeps(arg);
      UserRestSpec(a1.value);
    }
  }

  const UserIdCheck := StringField("id", IdIsUndefined)

  /** The id check touches no other field. */
  lemma UserIdCheckKeeps(arg: Json)
    requires ApplyCheck(arg, UserIdCheck).Ok?
    ensures var b := ApplyCheck(arg, UserIdCheck).value;
      b.JObj? &&
      Field(b, "id") == AsString(Field(arg, "id")) &&
      Field(b, "label") == Field(arg, "label") && Field(b, "group") == Field(arg, "group") &&
      Field(b, "explicit_community") == Field(arg, "explicit_community")
  {
  }

  /** An edge once `u1` is known to be defined: it becomes `from`, then `u2` becomes
      `to`, and `label` is the value as text (`shown`). */
  function EdgeTo(a: Json, shown: string): (r: Result<Json>)
    requires a.JObj?
    ensures r.Ok? <==> Field(a, "u2") != JUndef
    ensures r.Ok? ==> (r.value.JObj? && Field(r.value, "to") == AsString(Field(a, "u2")) &&
      Field(r.value, "u2") == JUndef && Field(r.value, "label") == JStr(shown) &&
      Field(r.value, "from") == Field(a, "from") && Field(r.value, "u1") == Field(a, "u1"))
  {
    var a1 :- ApplyCheck(a, StringField("u2", U2OfTheEdgeWithValue + shown + IsUndefinedTail));
    Ok(JObj(Put(Move(a1.fields, "u2", "to"), "label", JStr(shown))))
  }

  function EdgeFrom(a: Json, shown: string): (r: Result<Json>)
    requires a.JObj?
    ensures r.Ok? <==> Field(a, "u1") != JUndef && Field(a, "u2") != JUndef
    ensures r.Ok? ==> (r.value.JObj? &&
      Field(r.value, "from") == AsString(Field(a, "u1")) && Field(r.value, "to") == AsString(Field(a, "u2")) &&
      Field(r.value, "u1") == JUndef && Field(r.value, "u2") == JUndef && Field(r.value, "label") == JStr(shown))
  {
    var a1 :- ApplyCheck(a, StringField("u1", U1OfTheEdgeWithValue + shown + IsUndefinedTail));
    var a2 := JObj(Move(a1.fields, "u1", "from"));
    EdgeTo(a2, shown)
  }

  /** `isSimilarityDataValid` AS WRITTEN: a value that is not a number is replaced by
      `Number(arg.ivalued)`, a misspelt field that is normally absent, hence NaN. */
  function EdgeAsWrittenBody(arg: Json): (r: Result<Json>)
    ensures r.Ok? ==> arg.JObj? && (Field(arg, "value").JNum? || ToNum(Field(arg, "ivalued")).Some?)
  {
    var v :- Prop(arg, "value");
    if v.JUndef? then Err(ValueIsUndefined)
    else if v.JNum? then EdgeFrom(arg, NumToString(v.n))
    else
      match ToNum(Field(arg, "ivalued"))
      case None => Err(ValueIsNotANumber)
      case Some(n) => EdgeFrom(JObj(Put(arg.fields, "value", JNum(n))), NumToString(n))
  }

  function EdgeAsWritten(arg: Json): Result<Json>
  {
    Wrap(EdgeDataIsNotValid, EdgeAsWrittenBody(arg))
  }

  /** `isSimilarityDataValid` as intended: the value itself is converted. */
  function EdgeBody(arg: Json): Result<Json>
  {
    var a1 :- ApplyCheck(arg, NumberField("value", ValueIsUndefined, ValueIsNotANumber));
    EdgeFrom(a1, NumToString(Field(a1, "value").n))
  }

  function Edge(arg: Json): Result<Json>
  {
    Wrap(EdgeDataIsNotValid, EdgeBody(arg))
  }

  /** An edge is accepted exactly when its value converts to a number and it has both
      ends; `u1` / `u2` are then renamed `from` / `to` and `label` is the value as text. */
  lemma EdgeSpec(arg: Json)
    ensures Edge(arg).Ok? <==>
      arg.JObj? && Field(arg, "value") != JUndef && ToNum(Field(arg, "value")).Some? &&
      Field(arg, "u1") != JUndef && Field(arg, "u2") != JUndef
    ensures Edge(arg).Ok? ==> var r := Edge(arg).value;
      r.JObj? && Field(r, "from") == AsString(Field(arg, "u1")) && Field(r, "to") == AsString(Field(arg, "u2")) &&
      Field(r, "u1") == JUndef && Field(r, "u2") == JUndef &&
      Field(r, "label") == JStr(NumToString(ToNum(Field(arg, "value")).value))
  {
  }

  /** The misspelling refuses every edge whose value is not already a number, whatever
      that value is, unless the edge happens to carry an `ivalued` field. */
  lemma AsWrittenRefusesNonNumberValues(arg: Json)
    requires arg.JObj? && Field(arg, "value") != JUndef && !Field(arg, "value").JNum?
    requires Field(arg, "ivalued") == JUndef
    ensures EdgeAsWritten(arg) == Err(EdgeDataIsNotValidValueIsNotANumber)
  {
  }

  /** An edge whose value is the string "1": refused as written, accepted as intended. */
  lemma StringValueExample()
    ensures var e := JObj([("value", JStr("1")), ("u1", JStr("a")), ("u2", JStr("b"))]);
      EdgeAsWritten(e).Err? && Edge(e).Ok?
  {
    var e := JObj([("value", JStr("1")), ("u1", JStr("a")), ("u2", JStr("b"))]);
    AsWrittenRefusesNonNumberValues(e);
    assert AllDigits("1");
    assert ToNum(JStr("1")) == Some(1.0);
    EdgeSpec(e);
  }

  /** `arg.similarity[i] = isSimilarityDataValid(arg.similarity[i]); arg.similarity[i].id = i`
      for the edges from index `i` on, with the edge validator `g`. */
  function NumberedFrom(items: seq<Json>, i: nat, g: Json -> Result<Json>): (r: Result<seq<Json>>)
    requires i <= |items|
    ensures r.Ok? ==> |r.value| == |items| - i
    decreases |items| - i
  {
    if i == |items| then Ok([])
    else
      var e :- g(items[i]);
      var e2 :- SetProp(e, "id", JNum(i as real));
      var rest :- NumberedFrom(items, i + 1, g);
      Ok([e2] + rest)
  }

  /** `done` followed by the outcome `rest` of the remaining iterations. */
  function Prepend(done: seq<Json>, rest: Result<seq<Json>>): (r: Result<seq<Json>>)
    ensures r.Ok? <==> rest.Ok?
    ensures rest.Ok? ==> r.value == done + rest.value
    ensures rest.Err? ==> r == rest
  {
    match rest
    case Ok(xs) => Ok(done + xs)
    case Err(e) => Err(e)
  }

  /** The similarity loop: edge `i` is validated and then numbered `i`. */
  method NumberEdges(items: seq<Json>, g: Json -> Result<Json>) returns (r: Result<seq<Json>>)
    ensures r == NumberedFrom(items, 0, g)
  {
    var out: seq<Json> := [];
    var i := 0;
    if NumberedFrom(items, 0, g).Ok? {
      assert [] + NumberedFrom(items, 0, g).value == NumberedFrom(items, 0, g).value;
    }
    while i < |items|
      invariant 0 <= i <= |items|
      invariant NumberedFrom(items, 0, g) == Prepend(out, NumberedFrom(items, i, g))
      decreases |items| - i
    {
      var e := g(items[i]);
      if e.Err? {
        return Err(e.error);
      }
      var e2 := SetProp(e.value, "id", JNum(i as real));
      if e2.Err? {
        return Err(e2.error);
      }
      var rest := NumberedFrom(items, i + 1, g);
      if rest.Ok? {
        assert out + ([e2.value] + rest.value) == (out + [e2.value]) + rest.value;
      }
      out := out + [e2.value];
      i := i + 1;
    }
    assert out + [] == out;
    return Ok(out);
  }

  /** Every edge the loop keeps was accepted by the validator and carries its index as
      `id`. */
  lemma {:induction false} NumberedIds(items: seq<Json>, i: nat, g: Json -> Result<Json>, j: nat)
    requires i <= |items| && NumberedFrom(items, i, g).Ok? && j < |items| - i
    ensures g(items[i + j]).Ok?
    ensures g(items[i + j]).value.JObj? ==>
      NumberedFrom(items, i, g).value[j] == JObj(Put(g(items[i + j]).value.fields, "id", JNum((i + j) as real)))
    decreases j
  {
    if j > 0 {
      NumberedIds(items, i + 1, g, j - 1);
    }
  }

  /** The three collections this format checks (it does not check `artworks`). */
  const DataChecks := [
    ObjectCheck("communities", CommunitiesIsUndefined, CommunitiesIsNotAnObject),
    ObjectCheck("users", UsersIsUndefined, UsersIsNotAnObject),
    ObjectCheck("similarity", SimilarityIsUndefined, SimilarityIsNotAnObject)]

  /** The community and user loops, in that order. */
  const DataStages: seq<(string, Json -> Result<Json>)> := [("communities", Community), ("users", User)]

  /** The data file after the checks `checks`, the loops `stages` and the numbered edge
      loop with the edge validator `g`. */
  function DataWith(arg: Json, checks: seq<ObjectCheck>, stages: seq<(string, Json -> Result<Json>)>,
                    g: Json -> Result<Json>): Result<Json>
    requires forall i :: 0 <= i < |checks| ==> checks[i].key != "length"
    requires |checks| > 0
  {
    if arg.JUndef? then Err(PerspectiveNetworkDataIsUndefined)
    else
      var o :- CheckObjects(arg, checks);
      var o2 :- RunStages(o, stages);
      var s := Lookup(o2.fields, "similarity");
      var xs :- Loopable(s);
      var ys :- NumberedFrom(xs, 0, g);
      Ok(WriteBack(o2, "similarity", s, ys))
  }

  /** `validatePerspectiveDataJSON(arg)` of this format, with the edge value converted as
      intended. */
  function PerspectiveData(arg: Json): Result<Json>
  {
    Wrap(PerspectiveNetworkDataFileIsNotValid, DataWith(arg, DataChecks, DataStages, Edge))
  }

  /** The same, with the edge validator as written. */
  function PerspectiveDataAsWritten(arg: Json): Result<Json>
  {
    Wrap(PerspectiveNetworkDataFileIsNotValid, DataWith(arg, DataChecks, DataStages, EdgeAsWritten))
  }

  method ValidateDataWith(arg: Json, checks: seq<ObjectCheck>, stages: seq<(string, Json -> Result<Json>)>,
                          g: Json -> Result<Json>) returns (r: Result<Json>)
    requires forall i :: 0 <= i < |checks| ==> checks[i].key != "length"
    requires |checks| > 0
    ensures r == DataWith(arg, checks, stages, g)
  {
    if arg.JUndef? {
      return Err(PerspectiveNetworkDataIsUndefined);
    }
    var o := CheckEach(arg, checks);
    if o.Err? {
      return Err(o.error);
    }
    var o2 := RunEach(o.value, stages);
    if o2.Err? {
      return Err(o2.error);
    }
    var s := Lookup(o2.value.fields, "similarity");
    if s.JNull? || s.JUndef? {
      return Err(TypeErrorMessage("length"));
    }
    var ys := NumberEdges(Elements(s), g);
    if ys.Err? {
      return Err(ys.error);
    }
    return Ok(WriteBack(o2.value, "similarity", s, ys.value));
  }

  method ValidatePerspectiveData(arg: Json) returns (r: Result<Json>)
    ensures r == PerspectiveData(arg)
  {
    r := ValidateDataWith(arg, DataChecks, DataStages, Edge);
    r := Wrap(PerspectiveNetworkDataFileIsNotValid, r);
  }
}
