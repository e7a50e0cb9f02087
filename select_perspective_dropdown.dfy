/** The dropdown that shows a perspective on one side of the application. Its entries
    follow the list of all perspectives: the perspective shown on the dropdown's side is
    `active`, the one shown on the other side `disabled` (owned by the other dropdown),
    and every other one `unactive`. Clicking the active entry hides it; clicking an
    unactive one requests it and, once it arrives, shows it in place of the current one. */
module SelectPerspectiveDropdown {
  import opened Wrappers
  import opened ViewOptions
  import opened AuxTypes
  import P = PerspectiveIds

  /** The button state of a perspective in the dropdown of the left or right side. */
  function EntryState(a: P.PerspectiveActiveState, isLeft: bool): EButtonState
  {
    match a
    case Unactive => Unactive
    case Left => if isLeft then Active else Disabled
    case Right => if isLeft then Disabled else Active
  }

  /** The states the initialisation effect leaves for the list `allIds`. */
  function InitialStates(allIds: seq<P.PerspectiveId>, isLeft: bool): seq<EButtonState>
  {
    seq(|allIds|, i requires 0 <= i < |allIds| => EntryState(allIds[i].isActive, isLeft))
  }

  /** An entry is `active` exactly when its perspective is on this side, `disabled` exactly
      when it is on the other side and `unactive` exactly when it is on no side; so with at
      most one perspective per side, at most one entry is `active`. */
  lemma InitialStatesFacts(allIds: seq<P.PerspectiveId>, isLeft: bool)
    ensures |InitialStates(allIds, isLeft)| == |allIds|
    ensures forall i :: 0 <= i < |allIds| ==>
      (InitialStates(allIds, isLeft)[i] == Active <==> allIds[i].isActive == P.SideOf(isLeft)) &&
      (InitialStates(allIds, isLeft)[i] == Disabled <==> allIds[i].isActive == P.SideOf(!isLeft)) &&
      (InitialStates(allIds, isLeft)[i] == Unactive <==> allIds[i].isActive == P.Unactive)
    ensures P.AtMostOneHolds(allIds, P.SideOf(isLeft)) ==>
      forall i, j :: (0 <= i < |allIds| && 0 <= j < |allIds| &&
        InitialStates(allIds, isLeft)[i] == Active && InitialStates(allIds, isLeft)[j] == Active) ==> i == j
  {
  }

  /** The list handed to `setAllIds` after a click on the active entry `i`: a copy with
      entry `i` on no side. */
  function Deactivated(ids: seq<P.PerspectiveId>, i: nat): seq<P.PerspectiveId>
    requires i < |ids|
  {
    ids[i := ids[i].(isActive := P.Unactive)]
  }

  /** The list handed to `setAllIds` when the request for entry `i` succeeds: in a copy,
      entry `i` takes this side, then the entry that held it when the buttons were built
      (the first one found) is set to no side. */
  function Activated(ids: seq<P.PerspectiveId>, i: nat, isLeft: bool): seq<P.PerspectiveId>
    requires i < |ids|
  {
    var holder := P.FirstHolder(ids, P.SideOf(isLeft), 0);
    var withNew := ids[i := ids[i].(isActive := P.SideOf(isLeft))];
    if holder.Some? then withNew[holder.value := withNew[holder.value].(isActive := P.Unactive)] else withNew
  }

  /** Hiding changes only entry `i`, which ends on no side. */
  lemma DeactivatedFacts(ids: seq<P.PerspectiveId>, i: nat)
    requires i < |ids|
    ensures var r := Deactivated(ids, i);
      |r| == |ids| && r[i] == ids[i].(isActive := P.Unactive) &&
      forall j :: 0 <= j < |ids| && j != i ==> r[j] == ids[j]
  {
  }

  /** When the requested entry was on no side and at most one entry held this side, the
      requested entry becomes the only one on this side, the old holder goes to no side,
      and every other entry, the other side included, is kept. */
  lemma ActivatedFacts(ids: seq<P.PerspectiveId>, i: nat, isLeft: bool)
    requires i < |ids| && ids[i].isActive == P.Unactive
    requires P.AtMostOneHolds(ids, P.SideOf(isLeft))
    ensures var r := Activated(ids, i, isLeft);
      |r| == |ids| && r[i] == ids[i].(isActive := P.SideOf(isLeft)) &&
      forall j :: 0 <= j < |ids| && j != i ==>
        r[j] == if ids[j].isActive == P.SideOf(isLeft) then ids[j].(isActive := P.Unactive) else ids[j]
    ensures P.AtMostOneHolds(Activated(ids, i, isLeft), P.SideOf(isLeft))
  {
    var side := P.SideOf(isLeft);
    var holder := P.FirstHolder(ids, side, 0);
    var r := Activated(ids, i, isLeft);
    if holder.Some? {
      assert holder.value != i;
      forall j | 0 <= j < |ids| && j != i
        ensures r[j] == if ids[j].isActive == side then ids[j].(isActive := P.Unactive) else ids[j]
      {
        if ids[j].isActive == side {
          assert j == holder.value;
        }
      }
    }
    assert forall j :: 0 <= j < |ids| && j != i ==> r[j].isActive != side;
  }

  class SelectPerspectiveDropdown {
    var states: seq<EButtonState>
    const isLeftDropdown: bool

    /** The dropdown before its effect has run: no entries. */
    constructor (isLeftDropdown: bool)
      ensures states == [] && this.isLeftDropdown == isLeftDropdown
    {
      states := [];
      this.isLeftDropdown := isLeftDropdown;
    }

    /** The initialisation effect: for a defined list, a reset to one `unactive` entry per
        perspective, then one `changeOne` per perspective shown on a side. */
    method InitStates(allIds: Option<seq<P.PerspectiveId>>)
      modifies this
      ensures allIds.None? ==> states == old(states)
      ensures allIds.Some? ==> states == InitialStates(allIds.value, isLeftDropdown)
    {
      if allIds.Some? {
        var ids := allIds.value;
        states := ButtonStatesAfter(states, BStateArrayAction(ResetStates, |ids|, Unactive));
        for i := 0 to |ids|
          invariant |states| == |ids|
          invariant forall j :: 0 <= j < i ==> states[j] == EntryState(ids[j].isActive, isLeftDropdown)
          invariant forall j :: i <= j < |ids| ==> states[j] == Unactive
        {
          if ids[i].isActive != P.Unactive {
            if ids[i].isActive == P.Left {
              if isLeftDropdown {
                states := ButtonStatesAfter(states, BStateArrayAction(ChangeOne, i, Active));
              } else {
                states := ButtonStatesAfter(states, BStateArrayAction(ChangeOne, i, Disabled));
              }
            } else if ids[i].isActive == P.Right {
              if !isLeftDropdown {
                states := ButtonStatesAfter(states, BStateArrayAction(ChangeOne, i, Active));
              } else {
                states := ButtonStatesAfter(states, BStateArrayAction(ChangeOne, i, Disabled));
              }
            }
          }
        }
        assert states == InitialStates(ids, isLeftDropdown);
      }
    }

    /** A click on entry `i` of the buttons built from `allIds`. On an `active` entry it
        hands back the list with the entry hidden and clears this side's perspective; on an
        `unactive` one it marks the entry `loading` and requests that perspective;
        `disabled` and `loading` entries ignore it. `allIds` itself is never changed. */
    method Click(allIds: seq<P.PerspectiveId>, i: nat) returns (newIds: Option<seq<P.PerspectiveId>>,
                                                               clearActive: bool, requested: Option<string>)
      requires i < |allIds|
      modifies this
      ensures i < |old(states)| && old(states)[i] == Active ==>
        newIds == Some(Deactivated(allIds, i)) && clearActive && requested == None && states == old(states)
      ensures i < |old(states)| && old(states)[i] == Unactive ==>
        newIds == None && !clearActive && requested == Some(allIds[i].id) &&
        states == old(states)[i := Loading]
      ensures !(i < |old(states)| && old(states)[i] in {Active, Unactive}) ==>
        newIds == None && !clearActive && requested == None && states == old(states)
    {
      newIds, clearActive, requested := None, false, None;
      if i < |states| {
        var state := states[i];
        if state == Active {
          var allIdsToEdit := allIds;
          allIdsToEdit := allIdsToEdit[i := allIdsToEdit[i].(isActive := P.Unactive)];
          newIds, clearActive := Some(allIdsToEdit), true;
        } else if state == Unactive {
          states := ButtonStatesAfter(states, BStateArrayAction(ChangeOne, i, Loading));
          requested := Some(allIds[i].id);
        }
      }
    }

    /** The request callback for entry `i`. On success it hands back the list with the
        entry on this side in place of the old holder (the caller also sets the side's
        perspective); on failure the entry returns to `unactive`. */
    method RequestDone(allIds: seq<P.PerspectiveId>, i: nat, success: bool) returns (newIds: Option<seq<P.PerspectiveId>>)
      requires i < |allIds|
      modifies this
      ensures success ==> newIds == Some(Activated(allIds, i, isLeftDropdown)) && states == old(states)
      ensures !success ==> (newIds == None &&
        states == if i < |old(states)| then old(states)[i := Unactive] else old(states))
    {
      newIds := None;
      if success {
        var allIdsToEdit := allIds;
        var currentActivePerspective := P.FirstHolder(allIds, P.SideOf(isLeftDropdown), 0);
        allIdsToEdit := allIdsToEdit[i := allIdsToEdit[i].(isActive := P.SideOf(isLeftDropdown))];
        if currentActivePerspective.Some? {
          var h := currentActivePerspective.value;
          allIdsToEdit := allIdsToEdit[h := allIdsToEdit[h].(isActive := P.Unactive)];
        }
        newIds := Some(allIdsToEdit);
      } else if i < |states| {
        states := ButtonStatesAfter(states, BStateArrayAction(ChangeOne, i, Unactive));
      }
    }
  }
}
