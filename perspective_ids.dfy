/** The entries of the list of all perspectives: each names a perspective and says on
    which side of the application, if any, it is shown. */
module PerspectiveIds {
  import opened Wrappers

  datatype PerspectiveActiveState = Unactive | Left | Right

  datatype PerspectiveId = PerspectiveId(id: string, name: string, isActive: PerspectiveActiveState)

  /** The side a dropdown owns. */
  function SideOf(isLeft: bool): PerspectiveActiveState
  {
    if isLeft then Left else Right
  }

  /** At most one entry is shown on `side`. */
  predicate AtMostOneHolds(ids: seq<PerspectiveId>, side: PerspectiveActiveState)
  {
    forall i, j :: 0 <= i < |ids| && 0 <= j < |ids| && ids[i].isActive == side && ids[j].isActive == side ==> i == j
  }

  /** `find` on the list from position `from`: the first entry shown on `side`. */
  function FirstHolder(ids: seq<PerspectiveId>, side: PerspectiveActiveState, from: nat): (r: Option<nat>)
    decreases |ids| - from
    ensures r.None? ==> forall j :: from <= j < |ids| ==> ids[j].isActive != side
    ensures r.Some? ==> (from <= r.value < |ids| && ids[r.value].isActive == side &&
      forall j :: from <= j < r.value ==> ids[j].isActive != side)
  {
    if from >= |ids| then None
    else if ids[from].isActive == side then Some(from)
    else FirstHolder(ids, side, from + 1)
  }
}
