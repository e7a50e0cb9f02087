/** The panel that saves or deletes perspectives: a map from perspective id to whether
    its row is picked, a toggle that picks or unpicks every row, and two buttons that act
    on the picked perspectives. */
module SavePerspectives {
  import opened Wrappers
  import opened AssocMaps
  import P = PerspectiveIds

  /** The map built by setting every id of `ids`, in order, to `v`. */
  function FilledWith(ids: seq<P.PerspectiveId>, v: bool): seq<(string, bool)>
  {
    if ids == [] then [] else Set(FilledWith(ids[..|ids| - 1], v), ids[|ids| - 1].id, v)
  }

  /** Exactly the ids of the list are keys of the filled map, each with value `v`, and no
      key is repeated. */
  lemma {:induction false} FilledWithFacts(ids: seq<P.PerspectiveId>, v: bool)
    ensures forall k :: Get(FilledWith(ids, v), k) == if exists i :: 0 <= i < |ids| && ids[i].id == k then Some(v) else None
    ensures UniqueKeys(FilledWith(ids, v))
  {
    if ids != [] {
      var front := ids[..|ids| - 1];
      FilledWithFacts(front, v);
      SetKeepsKeysUnique(FilledWith(front, v), ids[|ids| - 1].id, v);
      forall k
        ensures Get(FilledWith(ids, v), k) == if exists i :: 0 <= i < |ids| && ids[i].id == k then Some(v) else None
      {
        if k != ids[|ids| - 1].id && exists i :: 0 <= i < |ids| && ids[i].id == k {
          var i :| 0 <= i < |ids| && ids[i].id == k;
          assert front[i].id == k;
        }
      }
    }
  }

  /** `states.get(id)` is truthy. */
  predicate Picked(states: seq<(string, bool)>, id: string)
  {
    Get(states, id) == Some(true)
  }

  /** The perspectives of `ids`, in order, whose rows are picked. */
  function Chosen(ids: seq<P.PerspectiveId>, states: seq<(string, bool)>): (r: seq<P.PerspectiveId>)
    ensures forall p :: p in r <==> p in ids && Picked(states, p.id)
    ensures |r| <= |ids|
  {
    if ids == [] then []
    else
      var front := Chosen(ids[..|ids| - 1], states);
      assert ids == ids[..|ids| - 1] + [ids[|ids| - 1]];
      if Picked(states, ids[|ids| - 1].id) then front + [ids[|ids| - 1]] else front
  }

  /** When no row of the list is picked, the buttons act on nothing. */
  lemma {:induction false} NothingPickedNothingChosen(ids: seq<P.PerspectiveId>, states: seq<(string, bool)>)
    requires forall p :: p in ids ==> !Picked(states, p.id)
    ensures Chosen(ids, states) == []
  {
    if ids != [] {
      assert ids[|ids| - 1] in ids;
      NothingPickedNothingChosen(ids[..|ids| - 1], states);
    }
  }

  /** A freshly built panel acts on nothing; after toggling every row on it acts on the
      whole list. */
  lemma FilledChoice(ids: seq<P.PerspectiveId>)
    ensures Chosen(ids, FilledWith(ids, false)) == []
    ensures forall p :: p in ids ==> p in Chosen(ids, FilledWith(ids, true))
  {
    var off, on := FilledWith(ids, false), FilledWith(ids, true);
    FilledWithFacts(ids, false);
    FilledWithFacts(ids, true);
    forall p | p in ids
      ensures p in Chosen(ids, on) && !Picked(off, p.id)
    {
      var i :| 0 <= i < |ids| && ids[i] == p;
      assert Get(on, p.id) == Some(true) && Get(off, p.id) == Some(false);
    }
    NothingPickedNothingChosen(ids, off);
  }

  /** The map after a click on the row of `id`: only that id changes, to the opposite of
      whether it was picked (an absent id counts as unpicked). */
  lemma RowToggleFacts(states: seq<(string, bool)>, id: string)
    ensures Picked(Set(states, id, !Picked(states, id)), id) <==> !Picked(states, id)
    ensures forall k :: k != id ==> Get(Set(states, id, !Picked(states, id)), k) == Get(states, k)
  {
  }

  /** `init(allPerspectivesIds)` and the toggle-all loop: a new map with every id set to
      `v`. */
  method FillStates(allPerspectivesIds: seq<P.PerspectiveId>, v: bool) returns (m: seq<(string, bool)>)
    ensures m == FilledWith(allPerspectivesIds, v)
  {
    m := [];
    for i := 0 to |allPerspectivesIds|
      invariant m == FilledWith(allPerspectivesIds[..i], v)
    {
      assert allPerspectivesIds[..i + 1][..i] == allPerspectivesIds[..i];
      m := Set(m, allPerspectivesIds[i].id, v);
    }
    assert allPerspectivesIds[..|allPerspectivesIds|] == allPerspectivesIds;
  }

  /** The loop of the download and delete buttons: the perspectives whose rows are picked,
      in list order. */
  method ChosenLoop(allPerspectivesIds: seq<P.PerspectiveId>, states: seq<(string, bool)>) returns (r: seq<P.PerspectiveId>)
    ensures r == Chosen(allPerspectivesIds, states)
  {
    r := [];
    for i := 0 to |allPerspectivesIds|
      invariant r == Chosen(allPerspectivesIds[..i], states)
    {
      assert allPerspectivesIds[..i + 1][..i] == allPerspectivesIds[..i];
      if Picked(states, allPerspectivesIds[i].id) {
        r := r + [allPerspectivesIds[i]];
      }
    }
    assert allPerspectivesIds[..|allPerspectivesIds|] == allPerspectivesIds;
  }

  class SavePerspectives {
    var states: seq<(string, bool)>
    var allToggle: bool
    var isActive: bool

    /** The panel's first render: every id unpicked, the toggle off. */
    constructor (allPerspectivesIds: seq<P.PerspectiveId>, isActive: bool)
      ensures states == FilledWith(allPerspectivesIds, false) && !allToggle && this.isActive == isActive
    {
      var initial := FillStates(allPerspectivesIds, false);
      states, allToggle, this.isActive := initial, false, isActive;
    }

    /** The select-all checkbox: a new map with every id set to the opposite of the toggle,
        then the toggle flips. */
    method ToggleAll(allPerspectivesIds: seq<P.PerspectiveId>)
      modifies this
      ensures states == FilledWith(allPerspectivesIds, !old(allToggle))
      ensures allToggle == !old(allToggle) && isActive == old(isActive)
    {
      var newMap := FillStates(allPerspectivesIds, !allToggle);
      states := newMap;
      allToggle := !allToggle;
    }

    /** A click on the row of perspective `i`: a copy of the map with that id flipped. */
    method ToggleRow(allPerspectivesIds: seq<P.PerspectiveId>, i: nat)
      requires i < |allPerspectivesIds|
      modifies this
      ensures states == Set(old(states), allPerspectivesIds[i].id, !Picked(old(states), allPerspectivesIds[i].id))
      ensures allToggle == old(allToggle) && isActive == old(isActive)
    {
      var newMap := states;
      newMap := Set(newMap, allPerspectivesIds[i].id, if Picked(states, allPerspectivesIds[i].id) then false else true);
      states := newMap;
    }

    /** The download button: the configuration of every picked perspective is requested,
        then the panel closes. */
    method Download(allPerspectivesIds: seq<P.PerspectiveId>) returns (requested: seq<P.PerspectiveId>)
      modifies this
      ensures requested == Chosen(allPerspectivesIds, states)
      ensures states == old(states) && allToggle == old(allToggle) && !isActive
    {
      requested := ChosenLoop(allPerspectivesIds, states);
      isActive := false;
    }

    /** The delete button, once the user's answer to the confirmation is known: when
        confirmed, every picked perspective is deleted, the file list is reloaded after a
        delay and the panel closes; otherwise nothing happens. */
    method Delete(allPerspectivesIds: seq<P.PerspectiveId>, confirmed: bool) returns (deleted: seq<string>, reload: bool)
      modifies this
      ensures confirmed ==> (|deleted| == |Chosen(allPerspectivesIds, states)| && reload && !isActive &&
        forall k :: 0 <= k < |deleted| ==> deleted[k] == Chosen(allPerspectivesIds, states)[k].id)
      ensures !confirmed ==> deleted == [] && !reload && isActive == old(isActive)
      ensures states == old(states) && allToggle == old(allToggle)
    {
      deleted, reload := [], false;
      if confirmed {
        var chosen := ChosenLoop(allPerspectivesIds, states);
        deleted := seq(|chosen|, k requires 0 <= k < |chosen| => chosen[k].id);
        reload := true;
        isActive := false;
      }
    }
  }
}
