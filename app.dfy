/** The application shell: the list of all perspectives with the side each one is shown
    on, the perspectives loaded on the left and right, the collapse state of the two
    halves, and where the toolbar places its controls for the window's width. */
module App {
  import opened Wrappers
  import opened ViewOptions
  import P = PerspectiveIds
  import S = SelectPerspectiveDropdown

  /** The side `initPerspectives` gives the entry with id `id`: the first URL perspective
      goes left, the second goes right unless it repeats the first, the rest on no side. */
  function InitialSide(id: string, perspectiveId1: Option<string>, perspectiveId2: Option<string>): P.PerspectiveActiveState
  {
    if Some(id) == perspectiveId1 then P.Left
    else if Some(id) == perspectiveId2 && perspectiveId2 != perspectiveId1 then P.Right
    else P.Unactive
  }

  /** The list `initPerspectives` leaves: every entry with its side recomputed. */
  function InitialIds(ids: seq<P.PerspectiveId>, perspectiveId1: Option<string>, perspectiveId2: Option<string>): seq<P.PerspectiveId>
  {
    seq(|ids|, i requires 0 <= i < |ids| => ids[i].(isActive := InitialSide(ids[i].id, perspectiveId1, perspectiveId2)))
  }

  /** An entry is left exactly when its id is the first URL perspective, and right exactly
      when it is the second one and that differs from the first; ids and names are kept.
      With distinct ids at most one entry is on each side. */
  lemma InitialIdsFacts(ids: seq<P.PerspectiveId>, perspectiveId1: Option<string>, perspectiveId2: Option<string>)
    ensures var r := InitialIds(ids, perspectiveId1, perspectiveId2);
      |r| == |ids| &&
      forall i :: 0 <= i < |ids| ==> (r[i].id == ids[i].id && r[i].name == ids[i].name &&
        (r[i].isActive == P.Left <==> Some(ids[i].id) == perspectiveId1) &&
        (r[i].isActive == P.Right <==> Some(ids[i].id) == perspectiveId2 && perspectiveId2 != perspectiveId1))
    ensures (forall i, j :: 0 <= i < j < |ids| ==> ids[i].id != ids[j].id) ==>
      P.AtMostOneHolds(InitialIds(ids, perspectiveId1, perspectiveId2), P.Left) &&
      P.AtMostOneHolds(InitialIds(ids, perspectiveId1, perspectiveId2), P.Right)
  {
    var r := InitialIds(ids, perspectiveId1, perspectiveId2);
    if forall i, j :: 0 <= i < j < |ids| ==> ids[i].id != ids[j].id {
      forall i, j | 0 <= i < |r| && 0 <= j < |r| && r[i].isActive == r[j].isActive && r[i].isActive != P.Unactive
        ensures i == j
      {
        assert ids[i].id == ids[j].id;
      }
    }
  }

  /** After `initPerspectives` the left dropdown shows the first URL perspective as its
      active entry and the right dropdown shows it disabled, and the other way round for
      the second URL perspective. */
  lemma DropdownsAfterInit(ids: seq<P.PerspectiveId>, perspectiveId1: Option<string>, perspectiveId2: Option<string>)
    ensures var r := InitialIds(ids, perspectiveId1, perspectiveId2);
      |S.InitialStates(r, true)| == |ids| && |S.InitialStates(r, false)| == |ids| &&
      forall i :: 0 <= i < |ids| ==>
        (S.InitialStates(r, true)[i] == Active <==> Some(ids[i].id) == perspectiveId1) &&
        (S.InitialStates(r, false)[i] == Disabled <==> Some(ids[i].id) == perspectiveId1) &&
        (S.InitialStates(r, false)[i] == Active <==> Some(ids[i].id) == perspectiveId2 && perspectiveId2 != perspectiveId1)
  {
    var r := InitialIds(ids, perspectiveId1, perspectiveId2);
    InitialIdsFacts(ids, perspectiveId1, perspectiveId2);
    S.InitialStatesFacts(r, true);
    S.InitialStatesFacts(r, false);
  }

  /** A perspective file request issued by `initPerspectives`. */
  datatype Request = Request(id: string, name: string, side: P.PerspectiveActiveState)

  /** The requests for the entries on a side, in list order. */
  function RequestsOf(ids: seq<P.PerspectiveId>): (r: seq<Request>)
    ensures |r| <= |ids|
    ensures forall q :: q in r ==> q.side != P.Unactive && exists i :: 0 <= i < |ids| && ids[i].id == q.id && ids[i].name == q.name && ids[i].isActive == q.side
  {
    if ids == [] then []
    else
      var last := ids[|ids| - 1];
      var front := RequestsOf(ids[..|ids| - 1]);
      if last.isActive != P.Unactive then front + [Request(last.id, last.name, last.isActive)] else front
  }

  /** The requests of a list with one more entry. */
  lemma RequestsSnoc(ids: seq<P.PerspectiveId>, x: P.PerspectiveId)
    ensures RequestsOf(ids + [x]) ==
      RequestsOf(ids) + if x.isActive != P.Unactive then [Request(x.id, x.name, x.isActive)] else []
  {
    assert (ids + [x])[..|ids|] == ids;
  }

  /** The state of both collapse buttons: clickable only when both halves hold a
      perspective. */
  function CollapseButtonState(leftPerspective: Option<string>, rightPerspective: Option<string>): (r: EButtonState)
    ensures r in {Unactive, Disabled}
    ensures r == Unactive <==> leftPerspective.Some? && rightPerspective.Some?
  {
    if leftPerspective.Some? && rightPerspective.Some? then Unactive else Disabled
  }

  /** The collapse state after a click on a collapse button whose state is `state`. */
  function CollapseClicked(collapseState: EAppCollapsedState, state: EButtonState, toTheLeft: bool): EAppCollapsedState
  {
    if state != Disabled then CollapseReducer(collapseState, if toTheLeft then ToTheLeft else ToTheRight) else collapseState
  }

  /** Unless both perspectives are loaded the collapse state never changes; with both, a
      click from the uncollapsed state collapses towards the button's side and the other
      button then undoes it. */
  lemma CollapseClickFacts(collapseState: EAppCollapsedState, l: Option<string>, r: Option<string>, toTheLeft: bool)
    ensures !(l.Some? && r.Some?) ==> CollapseClicked(collapseState, CollapseButtonState(l, r), toTheLeft) == collapseState
    ensures l.Some? && r.Some? ==>
      var once := CollapseClicked(UnCollapsed, CollapseButtonState(l, r), toTheLeft);
      once == (if toTheLeft then ToTheLeft else ToTheRight) &&
      CollapseClicked(once, CollapseButtonState(l, r), !toTheLeft) == UnCollapsed
  {
  }

  // ---------------------------------------------------------------- toolbar layout

  /** Below this width the toolbar uses the hamburger menu. */
  const SmallWidth := 1100
  /** Below this width the perspective dropdowns move into the hamburger menu too. */
  const TooSmallWidth := 600

  datatype Control = MainButton | FileSource | Options | SelectLeft | SelectRight | CollapseLeft | CollapseRight
                   | Legend | ConfToolToggle | HamburgerButton

  /** Where the navbar puts each control: the hamburger menu's items and the left, middle
      and right groups. */
  datatype Placement = Placement(hamburger: seq<Control>, left: seq<Control>, mid: seq<Control>, right: seq<Control>)

  function NavbarFor(windowWidth: int): Placement
  {
    var small := windowWidth < SmallWidth;
    var tooSmall := windowWidth < TooSmallWidth;
    if tooSmall then
      Placement([FileSource, Options, SelectLeft, SelectRight], [HamburgerButton], [CollapseLeft, CollapseRight], [Legend])
    else if small then
      Placement([FileSource, Options], [HamburgerButton], [SelectLeft, CollapseLeft, CollapseRight, SelectRight], [Legend])
    else
      Placement([], [MainButton, FileSource, Options], [SelectLeft, CollapseLeft, CollapseRight, SelectRight], [Legend, ConfToolToggle])
  }

  /** Every control the navbar and its hamburger menu hold, group by group. */
  function All(p: Placement): seq<Control>
  {
    p.hamburger + p.left + p.mid + p.right
  }

  /** At every width the file-source menu, the options menu, both perspective dropdowns,
      both collapse buttons and the legend are placed; the hamburger button is placed
      exactly below the small width, and the logo button and the configuration tool
      toggle exactly at or above it; nothing else is placed, and nothing twice (there are
      as many entries as controls named); the dropdowns are inside the hamburger menu
      exactly below the smaller width. */
  lemma NavbarFacts(windowWidth: int)
    ensures |All(NavbarFor(windowWidth))| == if windowWidth < SmallWidth then 8 else 9
    ensures forall c :: c in {FileSource, Options, SelectLeft, SelectRight, CollapseLeft, CollapseRight, Legend} ==>
      c in All(NavbarFor(windowWidth))
    ensures HamburgerButton in All(NavbarFor(windowWidth)) <==> windowWidth < SmallWidth
    ensures MainButton in All(NavbarFor(windowWidth)) <==> windowWidth >= SmallWidth
    ensures ConfToolToggle in All(NavbarFor(windowWidth)) <==> windowWidth >= SmallWidth
    ensures SelectLeft in NavbarFor(windowWidth).hamburger <==> windowWidth < TooSmallWidth
  {
    if windowWidth < TooSmallWidth {
      TooSmallControls(windowWidth);
    } else if windowWidth < SmallWidth {
      SmallControls(windowWidth);
    } else {
      WideControls(windowWidth);
    }
  }

  lemma TooSmallControls(windowWidth: int)
    requires windowWidth < TooSmallWidth
    ensures All(NavbarFor(windowWidth)) ==
      [FileSource, Options, SelectLeft, SelectRight, HamburgerButton, CollapseLeft, CollapseRight, Legend]
  {
  }

  lemma SmallControls(windowWidth: int)
    requires TooSmallWidth <= windowWidth < SmallWidth
    ensures All(NavbarFor(windowWidth)) ==
      [FileSource, Options, HamburgerButton, SelectLeft, CollapseLeft, CollapseRight, SelectRight, Legend]
  {
  }

  lemma WideControls(windowWidth: int)
    requires SmallWidth <= windowWidth
    ensures All(NavbarFor(windowWidth)) ==
      [MainButton, FileSource, Options, SelectLeft, CollapseLeft, CollapseRight, SelectRight, Legend, ConfToolToggle]
  {
  }

  class App {
    const perspectiveId1: Option<string>
    const perspectiveId2: Option<string>
    var allPerspectivesIds: seq<P.PerspectiveId>
    /** The ids of the perspectives loaded on each side. */
    var leftPerspective: Option<string>
    var rightPerspective: Option<string>
    var collapseState: EAppCollapsedState
    var isConfigToolActive: bool

    /** The application's initial state for the two perspective ids of the URL. */
    constructor (perspectiveId1: Option<string>, perspectiveId2: Option<string>)
      ensures this.perspectiveId1 == perspectiveId1 && this.perspectiveId2 == perspectiveId2
      ensures allPerspectivesIds == [] && leftPerspective == None && rightPerspective == None
      ensures collapseState == UnCollapsed && !isConfigToolActive
    {
      this.perspectiveId1, this.perspectiveId2 := perspectiveId1, perspectiveId2;
      allPerspectivesIds, leftPerspective, rightPerspective := [], None, None;
      collapseState, isConfigToolActive := UnCollapsed, false;
    }

    /** `initPerspectives(newIds)`: both sides are cleared, every entry's side is set in
        place, one file request is made per entry on a side, and the list is stored; a
        missing list stores the empty list. */
    method InitPerspectives(newIds: array?<P.PerspectiveId>) returns (requests: seq<Request>)
      modifies this, newIds
      ensures leftPerspective == None && rightPerspective == None
      ensures collapseState == old(collapseState) && isConfigToolActive == old(isConfigToolActive)
      ensures newIds == null ==> allPerspectivesIds == [] && requests == []
      ensures newIds != null ==>
        newIds[..] == InitialIds(old(newIds[..]), perspectiveId1, perspectiveId2) &&
        allPerspectivesIds == newIds[..] && requests == RequestsOf(newIds[..])
    {
      leftPerspective, rightPerspective := None, None;
      requests := [];
      if newIds != null {
        for i := 0 to newIds.Length
          modifies newIds
          invariant forall j :: 0 <= j < i ==>
            newIds[j] == old(newIds[j]).(isActive := InitialSide(old(newIds[j]).id, perspectiveId1, perspectiveId2))
          invariant forall j :: i <= j < newIds.Length ==> newIds[j] == old(newIds[j])
          invariant requests == RequestsOf(newIds[..i])
        {
          ghost var before := newIds[..i];
          var request := SetSide(newIds, i);
          assert newIds[..i + 1] == before + [newIds[i]];
          RequestsSnoc(before, newIds[i]);
          if request.Some? {
            requests := requests + [request.value];
          }
        }
        assert newIds[..newIds.Length] == newIds[..];
        allPerspectivesIds := newIds[..];
      } else {
        allPerspectivesIds := [];
      }
    }

    /** One step of `initPerspectives`: entry `i` gets its side in place, and the file
        request for it when it is on a side. */
    method SetSide(newIds: array<P.PerspectiveId>, i: nat) returns (request: Option<Request>)
      requires i < newIds.Length
      modifies newIds
      ensures newIds[i] == old(newIds[i]).(isActive := InitialSide(old(newIds[i]).id, perspectiveId1, perspectiveId2))
      ensures forall j :: 0 <= j < newIds.Length && j != i ==> newIds[j] == old(newIds[j])
      ensures request == if newIds[i].isActive != P.Unactive
        then Some(Request(newIds[i].id, newIds[i].name, newIds[i].isActive)) else None
    {
      request := None;
      if Some(newIds[i].id) == perspectiveId1 {
        newIds[i] := newIds[i].(isActive := P.Left);
        request := Some(Request(perspectiveId1.value, newIds[i].name, P.Left));
      } else if Some(newIds[i].id) == perspectiveId2 && perspectiveId2 != perspectiveId1 {
        newIds[i] := newIds[i].(isActive := P.Right);
        request := Some(Request(perspectiveId2.value, newIds[i].name, P.Right));
      } else {
        newIds[i] := newIds[i].(isActive := P.Unactive);
      }
    }

    /** A click on the left (`<<`) or right (`>>`) collapse button. */
    method CollapseClick(toTheLeft: bool)
      modifies this
      ensures collapseState == CollapseClicked(old(collapseState), CollapseButtonState(leftPerspective, rightPerspective), toTheLeft)
      ensures leftPerspective == old(leftPerspective) && rightPerspective == old(rightPerspective)
      ensures allPerspectivesIds == old(allPerspectivesIds) && isConfigToolActive == old(isConfigToolActive)
    {
      var state := CollapseButtonState(leftPerspective, rightPerspective);
      if state != Disabled {
        collapseState := CollapseReducer(collapseState, if toTheLeft then ToTheLeft else ToTheRight);
      }
    }

    /** The configuration tool button, which is never disabled: each click flips it. */
    method ToggleConfTool()
      modifies this
      ensures isConfigToolActive == !old(isConfigToolActive)
      ensures collapseState == old(collapseState) && allPerspectivesIds == old(allPerspectivesIds)
      ensures leftPerspective == old(leftPerspective) && rightPerspective == old(rightPerspective)
    {
      var state := if isConfigToolActive then Active else Unactive;
      if state != Disabled {
        isConfigToolActive := !isConfigToolActive;
      }
    }
  }
}
