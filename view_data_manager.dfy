/** The list of perspective pairs that are on screen: first-fit insertion and removal of
    pairs that become empty. */
module ViewDataManager {
  import opened Wrappers
  import opened Json
  import opened PerspectivesTypes

  // ---------------------------------------------------------------- list-of-pairs model

  predicate AllPairs(ps: seq<seq<Slot>>)
  {
    forall i :: 0 <= i < |ps| ==> |ps[i]| == 2
  }

  /** The index of the first pair with a free slot, or |ps|. */
  function FirstWithSpace(ps: seq<seq<Slot>>): (k: nat)
    ensures k <= |ps|
    ensures k < |ps| ==> None in ps[k]
    ensures forall j :: 0 <= j < k ==> None !in ps[j]
  {
    if ps == [] then 0
    else if None in ps[0] then 0
    else 1 + FirstWithSpace(ps[1..])
  }

  /** The pairs after `addPerspective(p)`. */
  function AddToPairs(ps: seq<seq<Slot>>, p: PerspectiveInfo): seq<seq<Slot>>
  {
    var k := FirstWithSpace(ps);
    if k < |ps| then ps[k := AddToSlots(ps[k], p)] else ps + [[Some(p), None]]
  }

  /** The pairs after `removePerspective(id)`: every pair is asked in order; the first
      one that becomes empty is dropped and the rest are not asked. */
  function RemoveFromPairs(ps: seq<seq<Slot>>, id: int): seq<seq<Slot>>
    requires AllPairs(ps)
  {
    if ps == [] then []
    else if RemoveEmptiesPair(ps[0], id) then ps[1..]
    else [RemoveFromSlots(ps[0], id)] + RemoveFromPairs(ps[1..], id)
  }

  /** The number of stored perspectives. */
  function Total(ps: seq<seq<Slot>>): nat
  {
    if ps == [] then 0 else Count(ps[0]) + Total(ps[1..])
  }

  lemma {:induction false} TotalUpdate(ps: seq<seq<Slot>>, k: nat, s: seq<Slot>)
    requires k < |ps|
    ensures Total(ps[k := s]) + Count(ps[k]) == Total(ps) + Count(s)
  {
    if k > 0 {
      assert ps[k := s][1..] == ps[1..][k - 1 := s];
      TotalUpdate(ps[1..], k - 1, s);
    }
  }

  lemma {:induction false} TotalAppend(ps: seq<seq<Slot>>, s: seq<Slot>)
    ensures Total(ps + [s]) == Total(ps) + Count(s)
  {
    if ps == [] {
      assert [s][1..] == [];
    } else {
      assert (ps + [s])[1..] == ps[1..] + [s];
      TotalAppend(ps[1..], s);
    }
  }

  /** Adding fills a free slot of the first pair that has one, or appends a new pair;
      either way exactly one more perspective is stored. */
  lemma AddToPairsSpec(ps: seq<seq<Slot>>, p: PerspectiveInfo)
    requires AllPairs(ps)
    ensures var r := AddToPairs(ps, p); var k := FirstWithSpace(ps);
      AllPairs(r) && Total(r) == Total(ps) + 1 &&
      (k < |ps| ==> |r| == |ps| && r[k] == AddToSlots(ps[k], p) &&
                    forall j :: 0 <= j < |ps| && j != k ==> r[j] == ps[j]) &&
      (k == |ps| ==> r == ps + [[Some(p), None]])
  {
    var k := FirstWithSpace(ps);
    if k < |ps| {
      AddToSlotsSpec(ps[k], p);
      TotalUpdate(ps, k, AddToSlots(ps[k], p));
    } else {
      TotalAppend(ps, [Some(p), None]);
      assert Count([Some(p), None]) == 1 by {
        var pair: seq<Slot> := [Some(p), None];
        assert pair[1..][1..] == [];
      }
    }
  }

  /** A pair that does not hold `id` is neither changed nor dropped: removal maps every
      pair before the first emptied one through `RemoveFromSlots`, drops that one, and
      keeps every later pair as it is. */
  lemma {:induction false} RemoveFromPairsSpec(ps: seq<seq<Slot>>, id: int, k: nat)
    requires AllPairs(ps)
    requires k <= |ps|
    requires forall j :: 0 <= j < k ==> !RemoveEmptiesPair(ps[j], id)
    requires k < |ps| ==> RemoveEmptiesPair(ps[k], id)
    ensures var r := RemoveFromPairs(ps, id);
      (k < |ps| ==> |r| == |ps| - 1 && r[k..] == ps[k + 1..]) &&
      (k == |ps| ==> |r| == |ps|) &&
      forall j :: 0 <= j < k ==> r[j] == RemoveFromSlots(ps[j], id)
  {
    var r := RemoveFromPairs(ps, id);
    if ps != [] && k > 0 {
      assert !RemoveEmptiesPair(ps[0], id);
      var tail := RemoveFromPairs(ps[1..], id);
      assert r == [RemoveFromSlots(ps[0], id)] + tail;
      RemoveFromPairsSpec(ps[1..], id, k - 1);
      assert forall j :: 1 <= j < k ==> r[j] == tail[j - 1];
      if k < |ps| {
        assert r[k..] == tail[k - 1..];
        assert ps[k + 1..] == ps[1..][k..];
      }
    }
  }

  /** Dropping the first pair that `id` empties, after the earlier ones have been asked,
      leaves exactly `RemoveFromPairs`. */
  lemma DropMatchesRemove(ps: seq<seq<Slot>>, id: int, k: nat, cur: seq<seq<Slot>>)
    requires AllPairs(ps) && k < |ps| && |cur| == |ps|
    requires forall j :: 0 <= j < k ==> !RemoveEmptiesPair(ps[j], id)
    requires RemoveEmptiesPair(ps[k], id)
    requires forall j :: 0 <= j < k ==> cur[j] == RemoveFromSlots(ps[j], id)
    requires forall j :: k < j < |ps| ==> cur[j] == ps[j]
    ensures cur[..k] + cur[k + 1..] == RemoveFromPairs(ps, id)
  {
    RemoveFromPairsSpec(ps, id, k);
    var r := RemoveFromPairs(ps, id);
    assert forall j :: k <= j < |r| ==> r[j] == r[k..][j - k] == ps[k + 1..][j - k];
  }

  /** A pair without `id` in either slot is left exactly as it was. */
  lemma PairWithoutIdUnchanged(s: seq<Slot>, id: int)
    requires |s| == 2 && !Holds(s[0], id) && !Holds(s[1], id)
    ensures RemoveFromSlots(s, id) == s && !RemoveEmptiesPair(s, id)
  {
    assert FirstHolding(s, id) == 2 by {
      assert s[1..][1..] == [];
    }
  }

  // ---------------------------------------------------------------- the class

  class ViewDataManager {
    var activePerspectivePairs: seq<PerspectivePair>
    ghost var Repr: set<object>

    /** Every pair is valid and owns its arrays; no two pairs share anything. */
    ghost predicate Valid()
      reads this, Repr
    {
      this in Repr &&
      (forall i :: 0 <= i < |activePerspectivePairs| ==>
        activePerspectivePairs[i] in Repr && activePerspectivePairs[i].Repr <= Repr &&
        this !in activePerspectivePairs[i].Repr && activePerspectivePairs[i].Valid()) &&
      (forall i, j :: 0 <= i < j < |activePerspectivePairs| ==>
        activePerspectivePairs[i].Repr !! activePerspectivePairs[j].Repr)
    }

    /** The slots of every pair, in list order. */
    ghost function Contents(): (r: seq<seq<Slot>>)
      requires Valid()
      reads this, Repr
      ensures |r| == |activePerspectivePairs| && AllPairs(r)
      ensures forall j :: 0 <= j < |r| ==> r[j] == activePerspectivePairs[j].Slots()
    {
      seq(|activePerspectivePairs|, i requires 0 <= i < |activePerspectivePairs| && Valid() reads this, Repr =>
        activePerspectivePairs[i].Slots())
    }

    constructor ()
      ensures Valid() && fresh(Repr) && Contents() == []
    {
      activePerspectivePairs := [];
      Repr := {this};
    }

    /** Fills a free slot of pair `i`; every other pair is left as it was. */
    method AddAt(i: nat, p: PerspectiveInfo)
      requires Valid() && i < |activePerspectivePairs|
      modifies Repr
      ensures Valid() && Repr == old(Repr) && activePerspectivePairs == old(activePerspectivePairs)
      ensures activePerspectivePairs[i].Slots() == AddToSlots(old(activePerspectivePairs[i].Slots()), p)
      ensures forall j :: 0 <= j < |activePerspectivePairs| && j != i ==>
        activePerspectivePairs[j].Slots() == old(activePerspectivePairs[j].Slots())
    {
      var pair := activePerspectivePairs[i];
      pair.AddNewPerspective(p);
      assert forall j :: 0 <= j < |activePerspectivePairs| && j != i ==>
        activePerspectivePairs[j].Repr !! pair.Repr;
    }

    /** Stores `p` in the first pair with an empty slot, or in a new pair whose id is the
        old number of pairs. */
    method AddPerspective(details: PerspectiveDetails, data: Json)
      requires Valid()
      modifies Repr
      ensures Valid() && fresh(Repr - old(Repr))
      ensures Contents() == AddToPairs(old(Contents()), PerspectiveInfo(details, data))
      ensures |old(Contents())| < |Contents()| ==>
        activePerspectivePairs[|old(Contents())|].pairID == |old(Contents())|
    {
      var p := PerspectiveInfo(details, data);
      ghost var before := Contents();
      var i := 0;
      while i < |activePerspectivePairs|
        invariant 0 <= i <= |activePerspectivePairs|
        invariant Valid() && Repr == old(Repr) && activePerspectivePairs == old(activePerspectivePairs)
        invariant Contents() == before
        invariant forall j :: 0 <= j < i ==> None !in before[j]
      {
        var hasSpace := activePerspectivePairs[i].HasEmptySpace();
        if hasSpace {
          AddAt(i, p);
          assert FirstWithSpace(before) == i;
          assert Contents() == before[i := AddToSlots(before[i], p)];
          return;
        }
        i := i + 1;
      }
      assert FirstWithSpace(before) == |before|;
      AppendPair(p);
    }

    /** Appends a new pair holding only `p`, whose id is the old number of pairs. */
    method AppendPair(p: PerspectiveInfo)
      requires Valid()
      modifies this
      ensures Valid() && fresh(Repr - old(Repr))
      ensures Contents() == old(Contents()) + [[Some(p), None]]
      ensures activePerspectivePairs[|old(activePerspectivePairs)|].pairID == |old(activePerspectivePairs)|
    {
      var newPair := new PerspectivePair(p, |activePerspectivePairs|);
      activePerspectivePairs := activePerspectivePairs + [newPair];
      Repr := Repr + newPair.Repr;
    }

    /** Asks pair `i` to drop `id`; every other pair is left as it was. */
    method RemoveAt(i: nat, id: int) returns (empty: bool)
      requires Valid() && i < |activePerspectivePairs|
      modifies Repr
      ensures Valid() && Repr == old(Repr) && activePerspectivePairs == old(activePerspectivePairs)
      ensures activePerspectivePairs[i].Slots() == RemoveFromSlots(old(activePerspectivePairs[i].Slots()), id)
      ensures empty == RemoveEmptiesPair(old(activePerspectivePairs[i].Slots()), id)
      ensures forall j :: 0 <= j < |activePerspectivePairs| && j != i ==>
        activePerspectivePairs[j].Slots() == old(activePerspectivePairs[j].Slots())
    {
      var pair := activePerspectivePairs[i];
      empty := pair.RemovePerspective(id);
      assert forall j :: 0 <= j < |activePerspectivePairs| && j != i ==>
        activePerspectivePairs[j].Repr !! pair.Repr;
    }

    /** Takes pair `i` out of the list, keeping the order of the others. */
    method DropAt(i: nat)
      requires Valid() && i < |activePerspectivePairs|
      modifies this
      ensures Valid() && Repr == old(Repr)
      ensures Contents() == old(Contents()[..i] + Contents()[i + 1..])
    {
      ghost var all := activePerspectivePairs;
      activePerspectivePairs := activePerspectivePairs[..i] + activePerspectivePairs[i + 1..];
      assert forall j :: 0 <= j < |activePerspectivePairs| ==>
        activePerspectivePairs[j] == (if j < i then all[j] else all[j + 1]);
    }

    /** Asks every pair to drop `id`; the first pair that becomes empty is removed from
        the list and the loop stops there. */
    method RemovePerspective(id: int)
      requires Valid()
      modifies Repr
      ensures Valid() && Repr == old(Repr)
      ensures Contents() == RemoveFromPairs(old(Contents()), id)
    {
      ghost var before := Contents();
      var i := 0;
      while i < |activePerspectivePairs|
        invariant 0 <= i <= |activePerspectivePairs| == |before|
        invariant Valid() && Repr == old(Repr) && activePerspectivePairs == old(activePerspectivePairs)
        invariant forall j :: 0 <= j < i ==> !RemoveEmptiesPair(before[j], id)
        invariant forall j :: 0 <= j < i ==> Contents()[j] == RemoveFromSlots(before[j], id)
        invariant forall j :: i <= j < |before| ==> Contents()[j] == before[j]
      {
        ghost var mid := Contents();
        var empty := RemoveAt(i, id);
        assert Contents() == mid[i := RemoveFromSlots(before[i], id)];
        if empty {
          ghost var cur := Contents();
          DropAt(i);
          DropMatchesRemove(before, id, i, cur);
          return;
        }
        i := i + 1;
      }
      RemoveFromPairsSpec(before, id, |before|);
      assert Contents() == RemoveFromPairs(before, id);
    }

    /** Forgets every pair. */
    method ClearPerspectives()
      requires Valid()
      modifies this
      ensures Valid() && Contents() == []
    {
      activePerspectivePairs := [];
    }
  }
}
