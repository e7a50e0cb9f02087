/** A pair of perspectives shown side by side: two slots and a flag per slot saying
    whether it is free. */
module PerspectivesTypes {
  import opened Wrappers
  import opened Json

  /** The details of a perspective from the all-perspectives file. */
  datatype PerspectiveDetails = PerspectiveDetails(id: int, name: string, algorithm: Json, similarityFunctions: Json)

  /** A perspective's details together with its data file. */
  datatype PerspectiveInfo = PerspectiveInfo(info: PerspectiveDetails, data: Json)

  type Slot = Option<PerspectiveInfo>

  // ---------------------------------------------------------------- slot model

  /** `slot?.info.id === id`. */
  predicate Holds(s: Slot, id: int)
  {
    s.Some? && s.value.info.id == id
  }

  /** The index of the first free slot, or |slots| when there is none. */
  function FirstFree(slots: seq<Slot>): (k: nat)
    ensures k <= |slots|
    ensures k < |slots| ==> slots[k].None?
    ensures forall j :: 0 <= j < k ==> slots[j].Some?
  {
    if slots == [] then 0
    else if slots[0].None? then 0
    else 1 + FirstFree(slots[1..])
  }

  /** The index of the first slot holding perspective `id`, or |slots|. */
  function FirstHolding(slots: seq<Slot>, id: int): (k: nat)
    ensures k <= |slots|
    ensures k < |slots| ==> Holds(slots[k], id)
    ensures forall j :: 0 <= j < k ==> !Holds(slots[j], id)
  {
    if slots == [] then 0
    else if Holds(slots[0], id) then 0
    else 1 + FirstHolding(slots[1..], id)
  }

  /** The slots after `addNewPerspective(p)`. */
  function AddToSlots(slots: seq<Slot>, p: PerspectiveInfo): seq<Slot>
  {
    var k := FirstFree(slots);
    if k < |slots| then slots[k := Some(p)] else slots
  }

  /** The slots after `removePerspective(id)`. */
  function RemoveFromSlots(slots: seq<Slot>, id: int): seq<Slot>
  {
    var k := FirstHolding(slots, id);
    if k < |slots| then slots[k := None] else slots
  }

  /** The value `removePerspective(id)` returns: a slot matched and both are now free. */
  predicate RemoveEmptiesPair(slots: seq<Slot>, id: int)
    requires |slots| == 2
  {
    var k := FirstHolding(slots, id);
    var after := RemoveFromSlots(slots, id);
    k < |slots| && after[0].None? && after[1].None?
  }

  /** How many perspectives the slots hold. */
  function Count(slots: seq<Slot>): (n: nat)
    ensures n <= |slots|
  {
    if slots == [] then 0 else (if slots[0].Some? then 1 else 0) + Count(slots[1..])
  }

  lemma {:induction false} CountUpdate(slots: seq<Slot>, k: nat, v: Slot)
    requires k < |slots|
    ensures Count(slots[k := v]) + (if slots[k].Some? then 1 else 0) == Count(slots) + (if v.Some? then 1 else 0)
  {
    if k > 0 {
      assert slots[k := v][1..] == slots[1..][k - 1 := v];
      CountUpdate(slots[1..], k - 1, v);
    }
  }

  /** Adding fills only the first free slot; with no free slot nothing changes; the
      count goes up by one exactly when a slot was free. */
  lemma AddToSlotsSpec(slots: seq<Slot>, p: PerspectiveInfo)
    ensures var r := AddToSlots(slots, p); var k := FirstFree(slots);
      |r| == |slots| &&
      (k < |slots| ==> r[k] == Some(p) && Count(r) == Count(slots) + 1) &&
      (forall j :: 0 <= j < |slots| && j != k ==> r[j] == slots[j]) &&
      (k == |slots| ==> r == slots)
  {
    var k := FirstFree(slots);
    if k < |slots| {
      CountUpdate(slots, k, Some(p));
    }
  }

  /** Removing clears only the first slot that holds `id`; without a match it changes
      nothing; the pair reports empty iff both slots are free afterwards. */
  lemma RemoveFromSlotsSpec(slots: seq<Slot>, id: int)
    requires |slots| == 2
    ensures var r := RemoveFromSlots(slots, id); var k := FirstHolding(slots, id);
      |r| == 2 &&
      (k < 2 ==> r[k].None? && Count(r) + 1 == Count(slots)) &&
      (forall j :: 0 <= j < 2 && j != k ==> r[j] == slots[j]) &&
      (k == 2 ==> r == slots && !RemoveEmptiesPair(slots, id)) &&
      (RemoveEmptiesPair(slots, id) <==> k < 2 && Count(r) == 0)
  {
    var k := FirstHolding(slots, id);
    var r := RemoveFromSlots(slots, id);
    if k < 2 {
      CountUpdate(slots, k, None);
      assert Count(r) == (if r[0].Some? then 1 else 0) + (if r[1].Some? then 1 else 0) by {
        assert r[1..][1..] == [];
      }
    }
  }

  // ---------------------------------------------------------------- the class

  class PerspectivePair {
    var perspectives: array<Slot>
    var pairID: int
    var spacesAvailables: array<bool>
    ghost var Repr: set<object>

    /** Two slots, and a slot is available exactly when it holds nothing. */
    ghost predicate Valid()
      reads this, Repr
    {
      Repr == {this, perspectives, spacesAvailables} &&
      perspectives.Length == 2 && spacesAvailables.Length == 2 &&
      forall i :: 0 <= i < 2 ==> (spacesAvailables[i] <==> perspectives[i].None?)
    }

    /** The slot contents. */
    function Slots(): seq<Slot>
      reads this, perspectives
    {
      perspectives[..]
    }

    /** A new pair holds `p` in slot 0; only slot 1 is available. */
    constructor (p: PerspectiveInfo, pairId: int)
      ensures Valid() && fresh(Repr)
      ensures Slots() == [Some(p), None] && pairID == pairId
      ensures spacesAvailables[..] == [false, true]
    {
      var ps := new Slot[2];
      ps[0], ps[1] := Some(p), None;
      var sa := new bool[2];
      sa[0], sa[1] := false, true;
      perspectives, pairID, spacesAvailables := ps, pairId, sa;
      Repr := {this, ps, sa};
    }

    /** Puts `p` into the first available slot, if any. */
    method AddNewPerspective(p: PerspectiveInfo)
      requires Valid()
      modifies Repr
      ensures Valid() && Repr == old(Repr)
      ensures perspectives == old(perspectives) && spacesAvailables == old(spacesAvailables) && pairID == old(pairID)
      ensures Slots() == AddToSlots(old(Slots()), p)
    {
      var i := 0;
      while i < spacesAvailables.Length
        invariant 0 <= i <= 2
        invariant forall j :: 0 <= j < i ==> !spacesAvailables[j]
        invariant perspectives[..] == old(perspectives[..]) && spacesAvailables[..] == old(spacesAvailables[..])
      {
        if spacesAvailables[i] {
          perspectives[i] := Some(p);
          spacesAvailables[i] := false;
          assert FirstFree(old(perspectives[..])) == i by {
            assert old(perspectives[..]) == [old(perspectives[0]), old(perspectives[1])];
          }
          return;
        }
        i := i + 1;
      }
      assert FirstFree(old(perspectives[..])) == 2 by {
        assert old(perspectives[..]) == [old(perspectives[0]), old(perspectives[1])];
      }
    }

    /** Clears the first slot holding `id`; answers whether the pair is now empty. */
    method RemovePerspective(id: int) returns (empty: bool)
      requires Valid()
      modifies Repr
      ensures Valid() && Repr == old(Repr)
      ensures perspectives == old(perspectives) && spacesAvailables == old(spacesAvailables) && pairID == old(pairID)
      ensures Slots() == RemoveFromSlots(old(Slots()), id)
      ensures empty == RemoveEmptiesPair(old(Slots()), id)
    {
      var i := 0;
      while i < perspectives.Length
        invariant 0 <= i <= 2
        invariant forall j :: 0 <= j < i ==> !Holds(perspectives[j], id)
        invariant perspectives[..] == old(perspectives[..]) && spacesAvailables[..] == old(spacesAvailables[..])
      {
        if perspectives[i].Some? && perspectives[i].value.info.id == id {
          perspectives[i] := None;
          spacesAvailables[i] := true;
          assert FirstHolding(old(perspectives[..]), id) == i by {
            assert old(perspectives[..]) == [old(perspectives[0]), old(perspectives[1])];
          }
          empty := spacesAvailables[0] && spacesAvailables[1];
          return;
        }
        i := i + 1;
      }
      assert FirstHolding(old(perspectives[..]), id) == 2 by {
        assert old(perspectives[..]) == [old(perspectives[0]), old(perspectives[1])];
      }
      empty := false;
    }

    /** Whether some slot is available. */
    method HasEmptySpace() returns (b: bool)
      requires Valid()
      ensures b <==> None in Slots()
      ensures b <==> FirstFree(Slots()) < 2
    {
      var i := 0;
      while i < spacesAvailables.Length
        invariant 0 <= i <= 2
        invariant forall j :: 0 <= j < i ==> !spacesAvailables[j]
      {
        if spacesAvailables[i] {
          assert Slots()[i] == None;
          return true;
        }
        i := i + 1;
      }
      assert Slots() == [perspectives[0], perspectives[1]];
      return false;
    }

    /** The perspective in the first occupied slot, or `undefined` when both are free. */
    method GetSingle() returns (r: Slot)
      requires Valid()
      ensures r.None? <==> Slots() == [None, None]
      ensures r.Some? ==> r == Slots()[if Slots()[0].Some? then 0 else 1]
    {
      var i := 0;
      while i < spacesAvailables.Length
        invariant 0 <= i <= 2
        invariant forall j :: 0 <= j < i ==> spacesAvailables[j]
      {
        if !spacesAvailables[i] {
          return perspectives[i];
        }
        i := i + 1;
      }
      assert Slots() == [perspectives[0], perspectives[1]];
      return None;
    }
  }
}
