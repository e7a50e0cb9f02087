/** The menu that picks how the active perspectives are laid out. It holds one button
    state per layout, with exactly one of them active. */
module LayoutDropdown {
  import opened Wrappers

  /** The three-valued button state of the toolbar (`inactive` is falsy). */
  datatype ButtonState = Inactive | Loading | Active

  datatype AppLayout = Horizontal | Vertical

  /** The enum value of a layout, which indexes the state array. */
  function LayoutIndex(l: AppLayout): (r: nat)
    ensures r < 2
  {
    match l
    case Horizontal => 0
    case Vertical => 1
  }

  /** The layout of the toolbar's initial options. */
  const InitialLayout := Horizontal

  /** The states with only layout `key` active. */
  function ActiveOnly(key: AppLayout): seq<ButtonState>
  {
    seq(2, i => if i == LayoutIndex(key) then Active else Inactive)
  }

  /** Exactly one entry is active, that of `key`, and the others are inactive. */
  predicate SelectedIs(s: seq<ButtonState>, key: AppLayout)
  {
    |s| == 2 && s[LayoutIndex(key)] == Active &&
    forall i :: 0 <= i < |s| && i != LayoutIndex(key) ==> s[i] == Inactive
  }

  /** A new array with one entry per layout, filled with `inactive`, then `key` set to
      `active` (the body of `changeLayout` and of the module's `init`). */
  method FillStates(key: AppLayout) returns (r: seq<ButtonState>)
    ensures r == ActiveOnly(key)
    ensures SelectedIs(r, key)
  {
    var newState := new ButtonState[2];
    for i := 0 to 2
      invariant forall j :: 0 <= j < i ==> newState[j] == Inactive
    {
      newState[i] := Inactive;
    }
    newState[LayoutIndex(key)] := Active;
    r := newState[..];
  }

  /** The states after clicking `key`: only an inactive entry reacts. */
  function Clicked(s: seq<ButtonState>, key: AppLayout): seq<ButtonState>
    requires |s| == 2
  {
    if s[LayoutIndex(key)] == Inactive then ActiveOnly(key) else s
  }

  /** A click keeps exactly one layout selected: the clicked one, or the one already
      selected when the clicked entry was not inactive; clicking the selected layout again
      changes nothing. */
  lemma ClickedKeepsOneSelected(s: seq<ButtonState>, current: AppLayout, key: AppLayout)
    requires SelectedIs(s, current)
    ensures SelectedIs(Clicked(s, key), key)
    ensures key == current ==> Clicked(s, key) == s
  {
    if key != current {
      assert LayoutIndex(key) != LayoutIndex(current);
      assert s[LayoutIndex(key)] == Inactive;
    }
  }

  class LayoutDropdown {
    var selectedItems: seq<ButtonState>
    /** The last layout handed to `setLayout`, if any. */
    var reported: Option<AppLayout>

    constructor ()
      ensures selectedItems == ActiveOnly(InitialLayout) && reported == None
    {
      var initial := FillStates(InitialLayout);
      selectedItems := initial;
      reported := None;
    }

    /** `changeLayout(key)`: an inactive entry becomes the only active one and the layout
        is reported; otherwise nothing happens. */
    method ChangeLayout(key: AppLayout)
      requires |selectedItems| == 2
      modifies this
      ensures selectedItems == Clicked(old(selectedItems), key)
      ensures reported == if old(selectedItems)[LayoutIndex(key)] == Inactive then Some(key) else old(reported)
    {
      if selectedItems[LayoutIndex(key)] == Inactive {
        var newState := FillStates(key);
        selectedItems := newState;
        reported := Some(key);
      }
    }
  }
}
