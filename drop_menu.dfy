/** A button that opens an extra menu. The menu is shown by a click (which also fixates
    it), by hovering when hovering is enabled and the menu is not fixated, and it closes on
    a second click or on a click outside it. */
module DropMenu {
  import opened Wrappers
  import opened ViewOptions

  datatype EDropMenuDirection = Right | Down | Left | Up

  /** Whether the extra menu is shown, and whether a click fixated it. */
  datatype MenuState = MenuState(show: bool, fixated: bool)

  const Closed := MenuState(false, false)

  /** The main button's click: with `buttonFixatesState`, an open fixated menu closes and
      unfixates, anything else opens and fixates; otherwise nothing happens. */
  function Clicked(s: MenuState, buttonFixatesState: bool): (r: MenuState)
    ensures !buttonFixatesState ==> r == s
    ensures buttonFixatesState ==> r.show == r.fixated && (r.show <==> !(s.show && s.fixated))
  {
    if buttonFixatesState then
      if s.show && s.fixated then Closed else MenuState(true, true)
    else s
  }

  /** A hover in or out: it sets `show` only when hovering changes the state and the menu
      is not fixated. */
  function Hovered(s: MenuState, isHoverIn: bool, hoverChangesState: bool): (r: MenuState)
    ensures r.fixated == s.fixated
    ensures r.show == if hoverChangesState && !s.fixated then isHoverIn else s.show
  {
    if hoverChangesState && !s.fixated then s.(show := isHoverIn) else s
  }

  /** The document listener is registered only while the menu is shown and closing on an
      outside click is enabled. */
  predicate ListensOutside(s: MenuState, closeWhenOutsideClick: bool)
  {
    closeWhenOutsideClick && s.show
  }

  /** A click in the document: when the listener is registered and the target is outside
      the component, the menu closes and unfixates. */
  function DocumentClicked(s: MenuState, targetInside: bool, closeWhenOutsideClick: bool): (r: MenuState)
    ensures ListensOutside(s, closeWhenOutsideClick) && !targetInside ==> r == Closed
    ensures !(ListensOutside(s, closeWhenOutsideClick) && !targetInside) ==> r == s
  {
    if ListensOutside(s, closeWhenOutsideClick) && !targetInside then Closed else s
  }

  /** A fixated menu is always shown: the state starts closed and every event keeps this. */
  predicate FixatedIsShown(s: MenuState)
  {
    s.fixated ==> s.show
  }

  /** Every event preserves `FixatedIsShown`. */
  lemma EventsKeepFixatedShown(s: MenuState, b: bool, inside: bool, flag: bool)
    requires FixatedIsShown(s)
    ensures FixatedIsShown(Clicked(s, flag))
    ensures FixatedIsShown(Hovered(s, b, flag))
    ensures FixatedIsShown(DocumentClicked(s, inside, flag))
  {
  }

  /** With `buttonFixatesState`, two clicks from the closed menu close it again; a click on
      a menu opened by hovering fixates it, and the next click closes it. */
  lemma ClickSequences(hoverChangesState: bool)
    ensures Clicked(Clicked(Closed, true), true) == Closed
    ensures var hovered := Hovered(Closed, true, hoverChangesState);
      hoverChangesState ==> (hovered == MenuState(true, false) &&
        Clicked(hovered, true) == MenuState(true, true) && Clicked(Clicked(hovered, true), true) == Closed)
  {
  }

  /** A fixated menu ignores hovering. */
  lemma FixatedIgnoresHover(s: MenuState, isHoverIn: bool, hoverChangesState: bool)
    requires s.fixated
    ensures Hovered(s, isHoverIn, hoverChangesState) == s
  {
  }

  /** The extra menu's style: a column flex box when shown, hidden otherwise; the right
      direction adds a negative top margin (its left margin is a DOM width). */
  datatype MenuStyle = MenuStyle(display: string, flexDirection: Option<string>, marginTop: Option<string>)

  /** `getExtraMenuStyle(show, ref, direction)`. */
  function ExtraMenuStyle(show: bool, menuDirection: EDropMenuDirection): (r: MenuStyle)
    ensures r.display == "flex" <==> show
    ensures r.display == "none" <==> !show
    ensures r.marginTop.Some? <==> menuDirection == Right
  {
    MenuStyle(if show then "flex" else "none", if show then Some("column") else None,
              if menuDirection == Right then Some("-0.5rem") else None)
  }

  /** What the component renders: a disabled button alone, or the main button in its state
      with the extra menu, wrapped in a row when the menu opens to the right. */
  datatype Rendered = DisabledButton | MenuButton(buttonState: EButtonState, menuStyle: MenuStyle, inRow: bool)

  class DropMenu {
    const itemCount: nat
    const closeWhenOutsideClick: bool
    const state: Option<EButtonState>
    const menuDirection: EDropMenuDirection
    const buttonFixatesState: bool
    const hoverChangesState: bool
    var showDropDown: bool
    var isShowFixated: bool

    function Menu(): MenuState
      reads this
    {
      MenuState(showDropDown, isShowFixated)
    }

    /** The component with its props (defaults as in the component's signature), closed. */
    constructor (itemCount: nat, closeWhenOutsideClick: bool, state: Option<EButtonState>,
                 menuDirection: EDropMenuDirection, buttonFixatesState: bool, hoverChangesState: bool)
      ensures Menu() == Closed && FixatedIsShown(Menu())
      ensures this.itemCount == itemCount && this.closeWhenOutsideClick == closeWhenOutsideClick
      ensures this.state == state && this.menuDirection == menuDirection
      ensures this.buttonFixatesState == buttonFixatesState && this.hoverChangesState == hoverChangesState
    {
      this.itemCount := itemCount;
      this.closeWhenOutsideClick := closeWhenOutsideClick;
      this.state := state;
      this.menuDirection := menuDirection;
      this.buttonFixatesState := buttonFixatesState;
      this.hoverChangesState := hoverChangesState;
      showDropDown := false;
      isShowFixated := false;
    }

    /** The main button's click handler. */
    method OnClick()
      modifies this
      ensures Menu() == Clicked(old(Menu()), buttonFixatesState)
    {
      if buttonFixatesState {
        if showDropDown {
          if isShowFixated {
            showDropDown := false;
            isShowFixated := false;
          } else {
            showDropDown := true;
            isShowFixated := true;
          }
        } else {
          showDropDown := true;
          isShowFixated := true;
        }
      }
    }

    /** `onHover(isHoverIn)`. */
    method OnHover(isHoverIn: bool)
      modifies this
      ensures Menu() == Hovered(old(Menu()), isHoverIn, hoverChangesState)
    {
      if hoverChangesState {
        if !isShowFixated {
          showDropDown := isHoverIn;
        }
      }
    }

    /** A click anywhere in the document, inside the component or not. */
    method OnDocumentClick(targetInside: bool)
      modifies this
      ensures Menu() == DocumentClicked(old(Menu()), targetInside, closeWhenOutsideClick)
    {
      if closeWhenOutsideClick && showDropDown && !targetInside {
        showDropDown := false;
        isShowFixated := false;
      }
    }

    /** The main button's state: the `state` prop when given, else active exactly while the
        menu is shown. */
    function MainButtonState(): (r: EButtonState)
      reads this
      ensures state.Some? ==> r == state.value
      ensures state.None? ==> (r == Active <==> showDropDown) && (r == Unactive <==> !showDropDown)
    {
      if state.None? then (if showDropDown then Active else Unactive) else state.value
    }

    /** The rendered tree: without items a disabled button and no menu. */
    function Render(): (r: Rendered)
      reads this
      ensures r.DisabledButton? <==> itemCount == 0
      ensures r.MenuButton? ==> (r.buttonState == MainButtonState() && (r.menuStyle.display == "flex" <==> showDropDown) &&
        (r.inRow <==> menuDirection == Right))
    {
      if itemCount == 0 then DisabledButton
      else MenuButton(MainButtonState(), ExtraMenuStyle(showDropDown, menuDirection), menuDirection == Right)
    }
  }
}
