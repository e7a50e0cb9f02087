/** The configuration tool's helpers: the initial state of its dropdowns, and the
    configuration file (user attributes, interaction similarity, artwork similarity,
    name, id and algorithm) built from the user's selections. */
module ConfigToolUtils {
  import opened Wrappers
  import opened Json
  import opened Strings
  import opened AssocMaps

  /** How two users are compared on an attribute. */
  datatype ESimilarity = Same | Similar | Different

  datatype NameAndType = NameAndType(attName: string, attType: string)

  /** A clustering or similarity algorithm offered by the seed. */
  datatype Algorithm = Algorithm(name: string, params: Json, default: bool)

  /** An artwork attribute and the similarity functions that can compare it. */
  datatype ArtworkAttribute = ArtworkAttribute(onAttribute: NameAndType, simFunction: seq<Algorithm>)

  /** An interaction similarity function offered by the seed. */
  datatype SimilarityFunction = SimilarityFunction(
    name: string, params: Json, onAttribute: NameAndType, interactionObject: NameAndType)

  datatype ConfigurationSeed = ConfigurationSeed(
    artworkAttributes: seq<ArtworkAttribute>,
    userAttributes: seq<NameAndType>,
    interactionSimilarityFunctions: seq<SimilarityFunction>,
    algorithm: seq<Algorithm>)

  /** An entry of `interaction_similarity_functions`: a copy of the selected function,
      with a `dissimilar` key only when one was added. */
  datatype InteractionSim = InteractionSim(simFunction: SimilarityFunction, dissimilar: Option<bool>)

  /** An entry of `similarity_functions`. */
  datatype ArtworkSim =
    | EqualOnId                                                    // EqualSimilarityDAO on `id`, no params
    | SimilarTo(name: string, onAttribute: NameAndType, params: Json)  // `dissimilar: false`
    | DissimilarTo(onAttribute: NameAndType)                        // `dissimilar: true`, no name

  datatype AlgorithmChoice = AlgorithmChoice(name: string, params: Json, weight: real)

  /** The configuration object sent to the community model. */
  datatype Config = Config(
    userAttributes: seq<NameAndType>,
    interactionSimilarityFunctions: seq<InteractionSim>,
    similarityFunctions: seq<ArtworkSim>,
    name: string,
    id: string,
    algorithm: AlgorithmChoice)

  const EqualSimilarityName: string := "EqualSimilarityDAO"

  // ---------------------------------------------------------------------------
  // Dropdown initialisation

  /** The `default` flags of a list of algorithms, in order. */
  function Defaults(algs: seq<Algorithm>): (r: seq<bool>)
  {
    if algs == [] then [] else Defaults(algs[..|algs| - 1]) + [algs[|algs| - 1].default]
  }

  /** Each flag is the `default` of the algorithm at the same position. */
  lemma {:induction false} DefaultsPointwise(algs: seq<Algorithm>)
    ensures |Defaults(algs)| == |algs|
    ensures forall i :: 0 <= i < |algs| ==> Defaults(algs)[i] == algs[i].default
  {
    if algs != [] {
      DefaultsPointwise(algs[..|algs| - 1]);
    }
  }

  /** The map built by `initArtworksAttrDrop` from the first attributes. */
  function DropOf(attrs: seq<ArtworkAttribute>): seq<(string, seq<bool>)>
  {
    if attrs == [] then []
    else
      var last := attrs[|attrs| - 1];
      Set(DropOf(attrs[..|attrs| - 1]), last.onAttribute.attName, Defaults(last.simFunction))
  }

  /** Attribute name -> the `default` flags of its similarity functions. */
  method InitArtworksAttrDrop(attributes: seq<ArtworkAttribute>) returns (output: seq<(string, seq<bool>)>)
    ensures output == DropOf(attributes)
  {
    output := [];
    for i := 0 to |attributes|
      invariant output == DropOf(attributes[..i])
    {
      var attr := attributes[i];
      var algArray: seq<bool> := [];
      for j := 0 to |attr.simFunction|
        invariant algArray == Defaults(attr.simFunction[..j])
      {
        assert attr.simFunction[..j + 1][..j] == attr.simFunction[..j];
        algArray := algArray + [attr.simFunction[j].default];
      }
      assert attr.simFunction[..|attr.simFunction|] == attr.simFunction;
      assert attributes[..i + 1][..i] == attributes[..i];
      output := Set(output, attr.onAttribute.attName, algArray);
    }
    assert attributes[..|attributes|] == attributes;
  }

  /** A name maps to the flags of the LAST attribute with that name (a later `set`
      overwrites an earlier one). */
  lemma {:induction false} DropOfLastWins(attrs: seq<ArtworkAttribute>, i: nat)
    requires i < |attrs|
    requires forall j :: i < j < |attrs| ==> attrs[j].onAttribute.attName != attrs[i].onAttribute.attName
    ensures Get(DropOf(attrs), attrs[i].onAttribute.attName) == Some(Defaults(attrs[i].simFunction))
  {
    if i < |attrs| - 1 {
      var init := attrs[..|attrs| - 1];
      assert forall j :: i < j < |init| ==> init[j] == attrs[j];
      DropOfLastWins(init, i);
    }
  }

  /** A name that no attribute carries is absent from the map. */
  lemma {:induction false} DropOfAbsent(attrs: seq<ArtworkAttribute>, name: string)
    requires forall j :: 0 <= j < |attrs| ==> attrs[j].onAttribute.attName != name
    ensures Get(DropOf(attrs), name).None?
  {
    if attrs != [] {
      DropOfAbsent(attrs[..|attrs| - 1], name);
    }
  }

  /** `initAlgorythmDrop`: the first algorithm flagged `default`, else the first one
      (`undefined` for an empty list). */
  method InitAlgorythmDrop(algorythms: seq<Algorithm>) returns (r: Option<Algorithm>)
    ensures r.Some? <==> algorythms != []
    ensures r.Some? && r.value.default ==>
      exists i :: 0 <= i < |algorythms| && algorythms[i] == r.value &&
        forall j :: 0 <= j < i ==> !algorythms[j].default
    ensures r.Some? && !r.value.default ==>
      r.value == algorythms[0] && forall j :: 0 <= j < |algorythms| ==> !algorythms[j].default
  {
    for i := 0 to |algorythms|
      invariant forall j :: 0 <= j < i ==> !algorythms[j].default
    {
      if algorythms[i].default {
        return Some(algorythms[i]);
      }
    }
    if algorythms == [] {
      return None;
    }
    return Some(algorythms[0]);
  }

  // ---------------------------------------------------------------------------
  // Configuration file

  /** The user attributes whose checkbox is true, in map order. */
  function SelectedUserAttributes(citizenAttr: seq<(string, bool)>): seq<NameAndType>
  {
    if citizenAttr == [] then []
    else
      var prefix := SelectedUserAttributes(citizenAttr[..|citizenAttr| - 1]);
      var (key, value) := citizenAttr[|citizenAttr| - 1];
      if value then prefix + [NameAndType(key, "String")] else prefix
  }

  /** `fillUserAttributes`: one string attribute per checked entry. */
  method FillUserAttributes(citizenAttr: seq<(string, bool)>) returns (userAttributes: seq<NameAndType>)
    ensures userAttributes == SelectedUserAttributes(citizenAttr)
  {
    userAttributes := [];
    for i := 0 to |citizenAttr|
      invariant userAttributes == SelectedUserAttributes(citizenAttr[..i])
    {
      assert citizenAttr[..i + 1][..i] == citizenAttr[..i];
      var (key, value) := citizenAttr[i];
      if value {
        userAttributes := userAttributes + [NameAndType(key, "String")];
      }
    }
    assert citizenAttr[..|citizenAttr|] == citizenAttr;
  }

  /** The emitted attributes are exactly the checked keys, typed `String`, and there are
      never more of them than map entries. */
  lemma {:induction false} SelectedUserAttributesExact(citizenAttr: seq<(string, bool)>, key: string, attType: string)
    ensures NameAndType(key, attType) in SelectedUserAttributes(citizenAttr) <==>
      attType == "String" && (key, true) in citizenAttr
    ensures |SelectedUserAttributes(citizenAttr)| <= |citizenAttr|
  {
    if citizenAttr != [] {
      var init := citizenAttr[..|citizenAttr| - 1];
      var last := citizenAttr[|citizenAttr| - 1];
      SelectedUserAttributesExact(init, key, attType);
      assert citizenAttr == init + [last];
      assert (key, true) in citizenAttr <==> (key, true) in init || last == (key, true);
    }
  }

  /** `fillInteractionSimilarityFunctions`: the single entry pushed for the selected
      interaction similarity function. */
  function InteractionEntry(selectedOption: SimilarityFunction, similarity1: ESimilarity): (r: InteractionSim)
    ensures r.simFunction.params == selectedOption.params
    ensures r.simFunction.onAttribute == selectedOption.onAttribute
    ensures r.simFunction.interactionObject == selectedOption.interactionObject
    ensures r.simFunction.name == if similarity1 == Same then EqualSimilarityName else selectedOption.name
    ensures r.dissimilar == if similarity1 == Different then Some(true) else None
  {
    match similarity1
    case Same => InteractionSim(selectedOption.(name := EqualSimilarityName), None)
    case Similar => InteractionSim(selectedOption, None)
    case Different => InteractionSim(selectedOption, Some(true))
  }

  /** `artworksAttr.get(name)` is truthy. */
  predicate Selected(artworksAttr: seq<(string, bool)>, name: string)
  {
    Get(artworksAttr, name) == Some(true)
  }

  /** `sim_functions[i]` is truthy (an index past the end reads `undefined`). */
  predicate Checked(flags: seq<bool>, i: nat)
  {
    i < |flags| && flags[i]
  }

  /** The entry for the `i`-th similarity function of an attribute. */
  function SimilarOf(attr: ArtworkAttribute, i: nat): ArtworkSim
    requires i < |attr.simFunction|
  {
    SimilarTo(attr.simFunction[i].name, attr.onAttribute, attr.simFunction[i].params)
  }

  /** The entries pushed for the first `upto` similarity functions of one attribute. */
  function SimilarFor(attr: ArtworkAttribute, flags: seq<bool>, upto: nat): seq<ArtworkSim>
    requires upto <= |attr.simFunction|
  {
    if upto == 0 then []
    else SimilarFor(attr, flags, upto - 1) + (if Checked(flags, upto - 1) then [SimilarOf(attr, upto - 1)] else [])
  }

  /** The entries pushed, under `Similar`, for the first attributes. */
  function SimilarEntries(attrs: seq<ArtworkAttribute>, artworksAttr: seq<(string, bool)>,
                          dropdown: seq<(string, seq<bool>)>): seq<ArtworkSim>
  {
    if attrs == [] then []
    else
      var prefix := SimilarEntries(attrs[..|attrs| - 1], artworksAttr, dropdown);
      var attr := attrs[|attrs| - 1];
      var flags := Get(dropdown, attr.onAttribute.attName);
      if Selected(artworksAttr, attr.onAttribute.attName) && flags.Some? then
        prefix + SimilarFor(attr, flags.value, |attr.simFunction|)
      else prefix
  }

  /** The entries pushed, under `Different`, for the first attributes. */
  function DifferentEntries(attrs: seq<ArtworkAttribute>, artworksAttr: seq<(string, bool)>): seq<ArtworkSim>
  {
    if attrs == [] then []
    else
      var prefix := DifferentEntries(attrs[..|attrs| - 1], artworksAttr);
      var attr := attrs[|attrs| - 1];
      if Selected(artworksAttr, attr.onAttribute.attName) then prefix + [DissimilarTo(attr.onAttribute)]
      else prefix
  }

  /** The `similarity_functions` list for the chosen artwork similarity. */
  function SimilarityFunctionsOf(similarity2: ESimilarity, attrs: seq<ArtworkAttribute>,
                                 artworksAttr: seq<(string, bool)>, dropdown: seq<(string, seq<bool>)>): seq<ArtworkSim>
  {
    match similarity2
    case Same => [EqualOnId]
    case Similar =>
      var entries := SimilarEntries(attrs, artworksAttr, dropdown);
      if entries == [] then [EqualOnId] else entries
    case Different => DifferentEntries(attrs, artworksAttr)
  }

  /** `fillSimilarityFunctions`. */
  method FillSimilarityFunctions(similarity2: ESimilarity, seed: ConfigurationSeed, artworksAttr: seq<(string, bool)>,
                                 artworksDropdownAttr: seq<(string, seq<bool>)>) returns (sims: seq<ArtworkSim>)
    ensures sims == SimilarityFunctionsOf(similarity2, seed.artworkAttributes, artworksAttr, artworksDropdownAttr)
  {
    var attrs := seed.artworkAttributes;
    sims := [];
    match similarity2
    case Same =>
      sims := [EqualOnId];
    case Similar =>
      for i := 0 to |attrs|
        invariant sims == SimilarEntries(attrs[..i], artworksAttr, artworksDropdownAttr)
      {
        var value := attrs[i];
        assert attrs[..i + 1][..i] == attrs[..i];
        var name := value.onAttribute.attName;
        if Get(artworksAttr, name) == Some(true) {
          var simFunctions := Get(artworksDropdownAttr, name);
          if simFunctions.Some? {
            ghost var before := sims;
            for j := 0 to |value.simFunction|
              invariant sims == before + SimilarFor(value, simFunctions.value, j)
            {
              if j < |simFunctions.value| && simFunctions.value[j] {
                sims := sims + [SimilarTo(value.simFunction[j].name, value.onAttribute, value.simFunction[j].params)];
              }
            }
          }
        }
      }
      assert attrs[..|attrs|] == attrs;
      if |sims| == 0 {
        sims := sims + [EqualOnId];
      }
    case Different =>
      for i := 0 to |attrs|
        invariant sims == DifferentEntries(attrs[..i], artworksAttr)
      {
        var value := attrs[i];
        assert attrs[..i + 1][..i] == attrs[..i];
        if Get(artworksAttr, value.onAttribute.attName) == Some(true) {
          sims := sims + [DissimilarTo(value.onAttribute)];
        }
      }
      assert attrs[..|attrs|] == attrs;
  }

  /** Every `Similar` entry comes from a selected attribute with a dropdown entry and a
      checked similarity function. */
  lemma {:induction false} SimilarForSound(attr: ArtworkAttribute, flags: seq<bool>, upto: nat, e: ArtworkSim)
    requires upto <= |attr.simFunction|
    requires e in SimilarFor(attr, flags, upto)
    ensures exists j :: 0 <= j < upto && Checked(flags, j) && e == SimilarOf(attr, j)
  {
    if e !in SimilarFor(attr, flags, upto - 1) {
      assert e == SimilarOf(attr, upto - 1);
    } else {
      SimilarForSound(attr, flags, upto - 1, e);
    }
  }

  /** Every checked similarity function of an attribute yields its entry. */
  lemma {:induction false} SimilarForComplete(attr: ArtworkAttribute, flags: seq<bool>, upto: nat, j: nat)
    requires j < upto <= |attr.simFunction| && Checked(flags, j)
    ensures SimilarOf(attr, j) in SimilarFor(attr, flags, upto)
  {
    if j < upto - 1 {
      SimilarForComplete(attr, flags, upto - 1, j);
    }
  }

  /** Under `Similar`, an entry is produced from attribute `attrs[i]` and its `j`-th
      function exactly when the attribute is selected and the function is checked. */
  lemma {:induction false} SimilarEntriesSound(attrs: seq<ArtworkAttribute>, artworksAttr: seq<(string, bool)>,
                                               dropdown: seq<(string, seq<bool>)>, e: ArtworkSim)
    requires e in SimilarEntries(attrs, artworksAttr, dropdown)
    ensures exists i, j: nat :: (0 <= i < |attrs| && j < |attrs[i].simFunction| &&
      Selected(artworksAttr, attrs[i].onAttribute.attName) &&
      Get(dropdown, attrs[i].onAttribute.attName).Some? &&
      Checked(Get(dropdown, attrs[i].onAttribute.attName).value, j) && e == SimilarOf(attrs[i], j))
  {
    var n := |attrs| - 1;
    var init := attrs[..n];
    var attr := attrs[n];
    var flags := Get(dropdown, attr.onAttribute.attName);
    if e in SimilarEntries(init, artworksAttr, dropdown) {
      SimilarEntriesSound(init, artworksAttr, dropdown, e);
      var i, j: nat :| 0 <= i < |init| && j < |init[i].simFunction| &&
        Selected(artworksAttr, init[i].onAttribute.attName) &&
        Get(dropdown, init[i].onAttribute.attName).Some? &&
        Checked(Get(dropdown, init[i].onAttribute.attName).value, j) && e == SimilarOf(init[i], j);
      assert attrs[i] == init[i];
    } else {
      SimilarForSound(attr, flags.value, |attr.simFunction|, e);
      var j :| 0 <= j < |attr.simFunction| && Checked(flags.value, j) && e == SimilarOf(attr, j);
      assert attrs[n] == attr;
    }
  }

  lemma {:induction false} SimilarEntriesComplete(attrs: seq<ArtworkAttribute>, artworksAttr: seq<(string, bool)>,
                                                  dropdown: seq<(string, seq<bool>)>, i: nat, j: nat)
    requires i < |attrs| && j < |attrs[i].simFunction|
    requires Selected(artworksAttr, attrs[i].onAttribute.attName)
    requires Get(dropdown, attrs[i].onAttribute.attName).Some?
    requires Checked(Get(dropdown, attrs[i].onAttribute.attName).value, j)
    ensures SimilarOf(attrs[i], j) in SimilarEntries(attrs, artworksAttr, dropdown)
  {
    var n := |attrs| - 1;
    var init := attrs[..n];
    if i < n {
      assert init[i] == attrs[i];
      SimilarEntriesComplete(init, artworksAttr, dropdown, i, j);
    } else {
      var attr := attrs[n];
      SimilarForComplete(attr, Get(dropdown, attr.onAttribute.attName).value, |attr.simFunction|, j);
    }
  }

  /** The number of selected attributes among `attrs`. */
  function SelectedCount(attrs: seq<ArtworkAttribute>, artworksAttr: seq<(string, bool)>): nat
  {
    if attrs == [] then 0
    else
      var last := if Selected(artworksAttr, attrs[|attrs| - 1].onAttribute.attName) then 1 else 0;
      SelectedCount(attrs[..|attrs| - 1], artworksAttr) + last
  }

  /** Under `Different` there is one dissimilar entry per selected attribute (possibly
      none), and each names a selected attribute. */
  lemma {:induction false} DifferentEntriesExact(attrs: seq<ArtworkAttribute>, artworksAttr: seq<(string, bool)>)
    ensures |DifferentEntries(attrs, artworksAttr)| == SelectedCount(attrs, artworksAttr)
    ensures forall e :: e in DifferentEntries(attrs, artworksAttr) ==>
      e.DissimilarTo? && exists i :: (0 <= i < |attrs| && attrs[i].onAttribute == e.onAttribute &&
        Selected(artworksAttr, attrs[i].onAttribute.attName))
  {
    if attrs != [] {
      var n := |attrs| - 1;
      DifferentEntriesExact(attrs[..n], artworksAttr);
      assert forall i :: 0 <= i < n ==> attrs[..n][i] == attrs[i];
    }
  }

  /** `Same` yields exactly the identity comparison; `Similar` never yields an empty list. */
  lemma SimilarityFunctionsNonEmpty(similarity2: ESimilarity, attrs: seq<ArtworkAttribute>,
                                    artworksAttr: seq<(string, bool)>, dropdown: seq<(string, seq<bool>)>)
    requires similarity2 != Different
    ensures SimilarityFunctionsOf(similarity2, attrs, artworksAttr, dropdown) != []
    ensures similarity2 == Same ==> SimilarityFunctionsOf(similarity2, attrs, artworksAttr, dropdown) == [EqualOnId]
    ensures similarity2 == Similar && SimilarEntries(attrs, artworksAttr, dropdown) != [] ==>
      EqualOnId !in SimilarityFunctionsOf(similarity2, attrs, artworksAttr, dropdown)
  {
    if similarity2 == Similar && SimilarEntries(attrs, artworksAttr, dropdown) != [] {
      if EqualOnId in SimilarEntries(attrs, artworksAttr, dropdown) {
        SimilarEntriesSound(attrs, artworksAttr, dropdown, EqualOnId);
      }
    }
  }

  // ---------------------------------------------------------------------------
  // Default perspective name

  /** The letter naming a similarity in the default name. */
  function SimLetter(s: ESimilarity): char
  {
    match s
    case Same => 'E'
    case Similar => 'S'
    case Different => 'D'
  }

  /** The names of the selected artwork attributes, in seed order. */
  function SelectedNames(attrs: seq<ArtworkAttribute>, artworksAttr: seq<(string, bool)>): seq<string>
  {
    if attrs == [] then []
    else
      var prefix := SelectedNames(attrs[..|attrs| - 1], artworksAttr);
      var name := attrs[|attrs| - 1].onAttribute.attName;
      if Selected(artworksAttr, name) then prefix + [name] else prefix
  }

  /** The default name from its parts: `E-`/`S-`/`D-`, the interaction attribute (when
      there is an interaction similarity), `-E-`/`-S-`/`-D-`, `artworks`, and the
      selected artwork attributes in parentheses unless the artwork similarity is `Same`. */
  function DefaultNameOf(similarity1: ESimilarity, hasInteraction: bool, attName: string,
                         similarity2: ESimilarity, names: seq<string>): string
  {
    var head := [SimLetter(similarity1), '-'] + (if hasInteraction then attName else "") +
      ['-', SimLetter(similarity2), '-'] + "artworks";
    if |names| != 0 && similarity2 != Same then head + " (" + Join(names, ", ") + ")" else head
  }

  /** `getDefaultName`. */
  method GetDefaultName(similarity1: ESimilarity, interactionSimilarityFunctions: seq<InteractionSim>,
                        seed: ConfigurationSeed, selectedOption: SimilarityFunction,
                        similarity2: ESimilarity, artworksAttr: seq<(string, bool)>) returns (configName: string)
    ensures configName == DefaultNameOf(similarity1, |interactionSimilarityFunctions| != 0,
      selectedOption.onAttribute.attName, similarity2, SelectedNames(seed.artworkAttributes, artworksAttr))
  {
    configName := [SimLetter(similarity1), '-'];
    if |interactionSimilarityFunctions| != 0 {
      configName := configName + selectedOption.onAttribute.attName;
    }
    configName := configName + ['-', SimLetter(similarity2), '-'];
    configName := configName + "artworks";

    var attrs := seed.artworkAttributes;
    var artworkAttributesName: seq<string> := [];
    for i := 0 to |attrs|
      invariant artworkAttributesName == SelectedNames(attrs[..i], artworksAttr)
    {
      assert attrs[..i + 1][..i] == attrs[..i];
      var name := attrs[i].onAttribute.attName;
      if Get(artworksAttr, name) == Some(true) {
        artworkAttributesName := artworkAttributesName + [attrs[i].onAttribute.attName];
      }
    }
    assert attrs[..|attrs|] == attrs;

    if |artworkAttributesName| != 0 && similarity2 != Same {
      configName := configName + " (" + Join(artworkAttributesName, ", ") + ")";
    }
  }

  /** The selected names are exactly the seed attributes whose checkbox is true. */
  lemma {:induction false} SelectedNamesExact(attrs: seq<ArtworkAttribute>, artworksAttr: seq<(string, bool)>, name: string)
    ensures name in SelectedNames(attrs, artworksAttr) <==>
      Selected(artworksAttr, name) && exists i :: 0 <= i < |attrs| && attrs[i].onAttribute.attName == name
  {
    if attrs != [] {
      var n := |attrs| - 1;
      SelectedNamesExact(attrs[..n], artworksAttr, name);
      assert forall i :: 0 <= i < n ==> attrs[..n][i] == attrs[i];
    }
  }

  /** The default name starts with the interaction letter; it contains the interaction
      attribute right after that when there is an interaction similarity; and it ends with
      `)` exactly when the attribute list is appended, otherwise with `artworks`. */
  lemma DefaultNameShape(similarity1: ESimilarity, hasInteraction: bool, attName: string,
                         similarity2: ESimilarity, names: seq<string>)
    ensures var r := DefaultNameOf(similarity1, hasInteraction, attName, similarity2, names);
      |r| > 2 && r[0] == SimLetter(similarity1) && r[1] == '-' &&
      (hasInteraction ==> r[2..2 + |attName|] == attName) &&
      (r[|r| - 1] == ')' <==> |names| != 0 && similarity2 != Same) &&
      (|names| == 0 || similarity2 == Same ==> r[|r| - 8..] == "artworks")
  {
    var head := [SimLetter(similarity1), '-'] + (if hasInteraction then attName else "") +
      ['-', SimLetter(similarity2), '-'] + "artworks";
    assert head[|head| - 8..] == "artworks";
    if hasInteraction {
      assert head[2..2 + |attName|] == attName;
    }
    var r := DefaultNameOf(similarity1, hasInteraction, attName, similarity2, names);
    assert r[..|head|] == head;
  }

  /** `createConfigurationFile` (the seed's only part read here is its artwork attributes). */
  method CreateConfigurationFile(seed: ConfigurationSeed, citizenAttr: seq<(string, bool)>,
                                 artworksAttr: seq<(string, bool)>, artworksDropdownAttr: seq<(string, seq<bool>)>,
                                 selectedOption: SimilarityFunction, similarity1: ESimilarity,
                                 similarity2: ESimilarity, perspectiveName: string,
                                 algorithm: Algorithm, algWeight: real) returns (newConfig: Config)
    ensures newConfig.userAttributes == SelectedUserAttributes(citizenAttr)
    ensures newConfig.interactionSimilarityFunctions == [InteractionEntry(selectedOption, similarity1)]
    ensures newConfig.similarityFunctions ==
      SimilarityFunctionsOf(similarity2, seed.artworkAttributes, artworksAttr, artworksDropdownAttr)
    ensures newConfig.id == newConfig.name && newConfig.name != ""
    ensures perspectiveName != "" ==> newConfig.name == ReplaceAll(perspectiveName, " ", "_")
    ensures perspectiveName != "" ==> forall i :: 0 <= i < |newConfig.name| ==> newConfig.name[i] != ' '
    ensures perspectiveName == "" ==> newConfig.name == DefaultNameOf(similarity1, true,
      selectedOption.onAttribute.attName, similarity2, SelectedNames(seed.artworkAttributes, artworksAttr))
    ensures newConfig.algorithm == AlgorithmChoice(algorithm.name, algorithm.params, algWeight)
  {
    var userAttributes := FillUserAttributes(citizenAttr);
    var interactions := [InteractionEntry(selectedOption, similarity1)];
    var sims := FillSimilarityFunctions(similarity2, seed, artworksAttr, artworksDropdownAttr);

    var configName := ReplaceAll(perspectiveName, " ", "_");
    ReplaceAllSameLength(perspectiveName, " ", "_");
    ReplaceAllCharRemovesAll(perspectiveName, ' ', '_');
    if configName == "" {
      configName := GetDefaultName(similarity1, interactions, seed, selectedOption, similarity2, artworksAttr);
      DefaultNameShape(similarity1, true, selectedOption.onAttribute.attName, similarity2,
                       SelectedNames(seed.artworkAttributes, artworksAttr));
    }
    newConfig := Config(userAttributes, interactions, sims, configName, configName,
                        AlgorithmChoice(algorithm.name, algorithm.params, algWeight));
  }
}
