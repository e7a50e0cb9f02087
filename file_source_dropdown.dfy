/** The menu that picks where the perspective files come from. Its two entries (local
    files, the API) hold button states; a change marks the chosen entry as the only loading
    one and, once the files arrive, as the only active one. */
module FileSourceDropdown {
  import opened Wrappers
  import opened ViewOptions
  import opened AuxTypes

  /** The button states with only source `f` active. */
  function InitialStates(f: EFileSource): seq<EButtonState>
  {
    seq(2, i => if i == FileSourceIndex(f) then Active else Unactive)
  }

  /** `EFileSource[f]`: the enum member's name. */
  function SourceName(f: EFileSource): string
  {
    match f
    case Local => "Local"
    case Api => "Api"
  }

  /** `init(initialOption)`: a new array with one entry per source, filled with `unactive`,
      then the initial source set to `active`. */
  method Init(initialOption: EFileSource) returns (r: seq<EButtonState>)
    ensures r == InitialStates(initialOption)
    ensures |r| == 2 && r[FileSourceIndex(initialOption)] == Active
    ensures forall i :: 0 <= i < 2 && i != FileSourceIndex(initialOption) ==> r[i] == Unactive
  {
    var initialState := new EButtonState[2];
    for i := 0 to 2
      invariant forall j :: 0 <= j < i ==> initialState[j] == Unactive
    {
      initialState[i] := Unactive;
    }
    initialState[FileSourceIndex(initialOption)] := Active;
    r := initialState[..];
  }

  /** A change of source first leaves the chosen entry as the only non-`unactive` one, in
      `loading`; its completion leaves exactly the initial states of that source, whatever
      the states were before. */
  lemma ChangeThenLoaded(s: seq<EButtonState>, f: EFileSource)
    requires |s| == 2
    ensures var loading := ButtonStatesAfter(s, BStateArrayAction(ActiveOne, FileSourceIndex(f), Loading));
      |loading| == 2 && loading[FileSourceIndex(f)] == Loading &&
      forall j :: 0 <= j < 2 && j != FileSourceIndex(f) ==> loading[j] == Unactive
    ensures var loading := ButtonStatesAfter(s, BStateArrayAction(ActiveOne, FileSourceIndex(f), Loading));
      ButtonStatesAfter(loading, BStateArrayAction(ActiveOne, FileSourceIndex(f), Active)) == InitialStates(f)
  {
    var loading := ButtonStatesAfter(s, BStateArrayAction(ActiveOne, FileSourceIndex(f), Loading));
    assert ButtonStatesAfter(loading, BStateArrayAction(ActiveOne, FileSourceIndex(f), Active)) == InitialStates(f);
  }

  /** The application's loading panel as this menu sets it. */
  datatype LoadingState = LoadingState(isActive: bool, msg: Option<string>)

  class FileSourceDropdown {
    var states: seq<EButtonState>
    var loadingState: LoadingState

    predicate Valid()
      reads this
    {
      |states| == 2
    }

    /** The menu with the states of `init(curentFileSource)`. */
    constructor (curentFileSource: EFileSource, loadingState: LoadingState)
      ensures Valid() && states == InitialStates(curentFileSource) && this.loadingState == loadingState
    {
      var initial := Init(curentFileSource);
      states := initial;
      this.loadingState := loadingState;
    }

    /** `changeFileSource(newFileSource)`: shows the loading panel naming the source and
        makes the source the only loading entry; the request itself is made by the caller. */
    method ChangeFileSource(newFileSource: EFileSource, requestFilesText: string)
      requires Valid()
      modifies this
      ensures Valid()
      ensures loadingState == LoadingState(true, Some(requestFilesText + " " + SourceName(newFileSource)))
      ensures states == ButtonStatesAfter(old(states), BStateArrayAction(ActiveOne, FileSourceIndex(newFileSource), Loading))
    {
      loadingState := LoadingState(true, Some(requestFilesText + " " + SourceName(newFileSource)));
      states := ButtonStatesAfter(states, BStateArrayAction(ActiveOne, FileSourceIndex(newFileSource), Loading));
    }

    /** The completion callback: hides the loading panel and makes the source the only
        active entry. */
    method FilesLoaded(newFileSource: EFileSource)
      requires Valid()
      modifies this
      ensures Valid()
      ensures loadingState == LoadingState(false, None) && states == InitialStates(newFileSource)
    {
      loadingState := LoadingState(false, None);
      states := ButtonStatesAfter(states, BStateArrayAction(ActiveOne, FileSourceIndex(newFileSource), Active));
      assert states == InitialStates(newFileSource);
    }

    /** The API entry's button: it changes the source only when its input field exists. */
    method ApiButtonClicked(input: Option<string>, requestFilesText: string)
      requires Valid()
      modifies this
      ensures Valid()
      ensures input.None? ==> states == old(states) && loadingState == old(loadingState)
      ensures input.Some? ==> (loadingState.isActive &&
        states == ButtonStatesAfter(old(states), BStateArrayAction(ActiveOne, FileSourceIndex(Api), Loading)))
    {
      if input.Some? {
        ChangeFileSource(Api, requestFilesText);
      }
    }
  }
}
