/** The settings menu: the file-source entries (the same states as the file-source menu)
    and two toggle buttons for the view options, the labels and the edges. */
module AllVisirOptions {
  import opened ViewOptions
  import opened AuxTypes
  import F = FileSourceDropdown

  /** `initOptions(viewOptions)`: the labels button, then the edges button, each active
      exactly when its option is on. */
  function InitOptions(showLabels: bool, hideEdges: bool): (r: seq<EButtonState>)
    ensures |r| == 2 && r[0] in {Active, Unactive} && r[1] in {Active, Unactive}
    ensures (r[0] == Active <==> showLabels) && (r[1] == Active <==> hideEdges)
  {
    [] + [if showLabels then Active else Unactive] + [if hideEdges then Active else Unactive]
  }

  /** The option states after `onOptionClicked(index, ...)`: the entry goes to `loading`,
      then to its flipped state (active becomes unactive, anything else active), or back to
      its saved state when dispatching the option change throws. A loading entry ignores
      the click. */
  function OptionClicked(s: seq<EButtonState>, index: nat, dispatchThrows: bool): seq<EButtonState>
    requires index < |s|
  {
    if s[index] == Loading then s
    else
      var savedState := s[index];
      var loading := ButtonStatesAfter(s, BStateArrayAction(ChangeOne, index, Loading));
      ButtonStatesAfter(loading, BStateArrayAction(ChangeOne, index,
        if dispatchThrows then savedState else if savedState == Active then Unactive else Active))
  }

  /** Only the clicked entry changes: it keeps its state when loading or when the dispatch
      throws, and is flipped otherwise; two clicks restore an active or unactive entry. */
  lemma OptionClickedFacts(s: seq<EButtonState>, index: nat, dispatchThrows: bool)
    requires index < |s|
    ensures var r := OptionClicked(s, index, dispatchThrows);
      |r| == |s| && forall j :: 0 <= j < |s| && j != index ==> r[j] == s[j]
    ensures s[index] == Loading || dispatchThrows ==> OptionClicked(s, index, dispatchThrows) == s
    ensures s[index] != Loading && !dispatchThrows ==>
      OptionClicked(s, index, dispatchThrows)[index] == if s[index] == Active then Unactive else Active
    ensures s[index] in {Active, Unactive} ==>
      OptionClicked(OptionClicked(s, index, false), index, false) == s
  {
    var r := OptionClicked(s, index, dispatchThrows);
    if s[index] != Loading && dispatchThrows {
      assert r == s;
    }
    if s[index] in {Active, Unactive} {
      var once := OptionClicked(s, index, false);
      assert OptionClicked(once, index, false) == s;
    }
  }

  class AllVisirOptions {
    var fileSourceState: seq<EButtonState>
    var optionsStates: seq<EButtonState>

    predicate Valid()
      reads this
    {
      |fileSourceState| == 2 && |optionsStates| == 2
    }

    /** The menu's initial states: `initFileSource` (the file-source menu's `init`) and
        `initOptions`. */
    constructor (curentFileSource: EFileSource, showLabels: bool, hideEdges: bool)
      ensures Valid()
      ensures fileSourceState == F.InitialStates(curentFileSource) && optionsStates == InitOptions(showLabels, hideEdges)
    {
      var initial := F.Init(curentFileSource);
      fileSourceState := initial;
      optionsStates := InitOptions(showLabels, hideEdges);
    }

    /** `changeFileSource(newFileSource, ...)`: the source becomes the only loading entry;
        the request is made by the caller. */
    method ChangeFileSource(newFileSource: EFileSource)
      requires Valid()
      modifies this
      ensures Valid() && optionsStates == old(optionsStates)
      ensures fileSourceState ==
        ButtonStatesAfter(old(fileSourceState), BStateArrayAction(ActiveOne, FileSourceIndex(newFileSource), Loading))
    {
      fileSourceState := ButtonStatesAfter(fileSourceState, BStateArrayAction(ActiveOne, FileSourceIndex(newFileSource), Loading));
    }

    /** The completion callback: the source becomes the only active entry. */
    method FileSourceLoaded(newFileSource: EFileSource)
      requires Valid()
      modifies this
      ensures Valid() && optionsStates == old(optionsStates)
      ensures fileSourceState == F.InitialStates(newFileSource)
    {
      fileSourceState := ButtonStatesAfter(fileSourceState, BStateArrayAction(ActiveOne, FileSourceIndex(newFileSource), Active));
      assert fileSourceState == F.InitialStates(newFileSource);
    }

    /** `onOptionClicked(index, updateType)`; whether the view-options dispatch throws is a
        parameter. */
    method OnOptionClicked(index: nat, dispatchThrows: bool)
      requires Valid() && index < 2
      modifies this
      ensures Valid() && fileSourceState == old(fileSourceState)
      ensures optionsStates == OptionClicked(old(optionsStates), index, dispatchThrows)
    {
      if optionsStates[index] != Loading {
        var savedState := optionsStates[index];
        optionsStates := ButtonStatesAfter(optionsStates, BStateArrayAction(ChangeOne, index, Loading));
        if !dispatchThrows {
          optionsStates := ButtonStatesAfter(optionsStates, BStateArrayAction(ChangeOne, index,
            if savedState == Active then Unactive else Active));
        } else {
          optionsStates := ButtonStatesAfter(optionsStates, BStateArrayAction(ChangeOne, index, savedState));
        }
      }
    }
  }
}
