/** The bounding-box controller of the newer perspective view: one box per community,
    grown node by node, coloured from an eight-colour palette (transparent for the
    community of users without one), and searched for a hit in community order. */
module BoxesController {
  import opened Wrappers
  import opened JsOps
  import opened Boxes

  datatype ECommunityType = Implicit | Inexistent

  /** The parts of a community this controller reads and writes. */
  datatype Community = Community(kind: ECommunityType, bb: Option<BoundingBox>)

  /** The parts of a user node this controller reads. */
  datatype UserNode = UserNode(communityNumber: nat, x: real, y: real, size: real)

  const Palette: seq<BoxColor> := [
    BoxColor("rgba(248, 212, 251, 0.6)", "rgba(242, 169, 249, 1)", Some("rgba(10, 10, 10, 1)"), "Purple"),
    BoxColor("rgba(255, 255, 170, 0.6)", "rgba(255, 222, 120, 1)", Some("rgba(10, 10, 10, 1)"), "Yellow"),
    BoxColor("rgba(211, 245, 192, 0.6)", "rgba(169, 221, 140, 1)", Some("rgba(10, 10, 10, 1)"), "Green"),
    BoxColor("rgba(254, 212, 213, 0.6)", "rgba(252, 153, 156, 1)", Some("rgba(10, 10, 10, 1)"), "Red"),
    BoxColor("rgba(220, 235, 254, 0.6)", "rgba(168, 201, 248, 1)", Some("rgba(10, 10, 10, 1)"), "Blue"),
    BoxColor("rgba(250, 220, 185, 0.6)", "rgba(250, 169, 73, 1)", Some("rgba(10, 10, 10, 1)"), "Orange"),
    BoxColor("rgba(240, 240, 240, 0.6)", "rgba(230, 230, 230, 1)", Some("rgba(10, 10, 10, 1)"), "White"),
    BoxColor("rgba(10, 10, 10, 0.6)", "rgba(0, 0, 0, 1)", Some("rgba(10, 10, 10, 1)"), "Black")]

  const InexistentColor: BoxColor := BoxColor("rgba(0, 0, 0, 0.0)", "rgba(0, 0, 0, 0)", None, "Transparent")

  /** The colour a community's box gets when its first node arrives. */
  function BoxColorOf(kind: ECommunityType, communityNumber: nat): (r: BoxColor)
    ensures kind == Inexistent <==> r == InexistentColor
    ensures kind != Inexistent ==> r == Palette[JsRem(communityNumber, 8)] && r in Palette
  {
    if kind != Inexistent then Palette[JsRem(communityNumber, 8)] else InexistentColor
  }

  /** What one call of `calculateBoundingBoxes` makes of the node's community: the first
      node sets the box, later nodes extend it. */
  function AddNode(c: Community, node: UserNode): (r: Community)
    ensures r.kind == c.kind && r.bb.Some?
    ensures Contains(r.bb.value.rect, NodeRect(node.x, node.y, node.size))
    ensures c.bb.Some? ==> Contains(r.bb.value.rect, c.bb.value.rect) && r.bb.value.color == c.bb.value.color
    ensures c.bb.None? ==> r.bb.value.color == BoxColorOf(c.kind, node.communityNumber)
  {
    var nodeBB := NodeRect(node.x, node.y, node.size);
    match c.bb
    case None => c.(bb := Some(BoundingBox(nodeBB, BoxColorOf(c.kind, node.communityNumber))))
    case Some(bb) => c.(bb := Some(bb.(rect := Extend(bb.rect, nodeBB))))
  }

  /** The first node of a community gives it exactly its own padded box. */
  lemma FirstNodeSetsBox(c: Community, node: UserNode)
    requires c.bb.None?
    ensures AddNode(c, node).bb.value.rect == NodeRect(node.x, node.y, node.size)
  {
  }

  /** Among all boxes covering the old box and the node, the new box is the smallest. */
  lemma AddNodeIsLeast(c: Community, node: UserNode, cover: Rect)
    requires c.bb.Some? && Contains(cover, c.bb.value.rect)
    requires Contains(cover, NodeRect(node.x, node.y, node.size))
    ensures Contains(cover, AddNode(c, node).bb.value.rect)
  {
    ExtendIsLeast(c.bb.value.rect, NodeRect(node.x, node.y, node.size), cover);
  }

  class BoxesController {
    /** The communities of the network, shared with the caller. */
    var comData: array<Community>
    var highlightedComms: seq<Community>

    constructor(communityData: array<Community>)
      ensures comData == communityData && highlightedComms == []
    {
      comData := communityData;
      highlightedComms := [];
    }

    /** `calculateBoundingBoxes` for one node: only its community's entry changes; a
        community number past the end of the list throws a TypeError and changes nothing. */
    method CalculateBoundingBoxes(node: UserNode) returns (r: Result<()>)
      modifies comData
      ensures r.Err? <==> node.communityNumber >= comData.Length
      ensures r.Err? ==> r.error == NoCommunityError && comData[..] == old(comData[..])
      ensures r.Ok? ==> comData[node.communityNumber] == AddNode(old(comData[node.communityNumber]), node)
      ensures forall i :: 0 <= i < comData.Length && i != node.communityNumber ==> comData[i] == old(comData[i])
    {
      var cn := node.communityNumber;
      if cn >= comData.Length {
        return Err(NoCommunityError);
      }
      var nodeBB := Rect(node.y - node.size / 2.0 - Padding, node.y + node.size / 2.0 + Padding,
                         node.x - node.size / 2.0 - Padding, node.x + node.size / 2.0 + Padding);
      var c := comData[cn];
      if c.bb.None? {
        var color := if c.kind != Inexistent then Palette[JsRem(cn, |Palette|)] else InexistentColor;
        comData[cn] := c.(bb := Some(BoundingBox(nodeBB, color)));
      } else {
        var bb := c.bb.value.rect;
        if nodeBB.left < bb.left {
          bb := bb.(left := nodeBB.left);
        }
        if nodeBB.top < bb.top {
          bb := bb.(top := nodeBB.top);
        }
        if nodeBB.right > bb.right {
          bb := bb.(right := nodeBB.right);
        }
        if nodeBB.bottom > bb.bottom {
          bb := bb.(bottom := nodeBB.bottom);
        }
        comData[cn] := c.(bb := Some(c.bb.value.(rect := bb)));
      }
      r := Ok(());
    }

    /** `isBoundingBoxClicked`: the first community whose box strictly contains the point,
        or null; reaching a community without a box throws. */
    method IsBoundingBoxClicked(x: real, y: real) returns (r: Result<Option<nat>>)
      ensures r.Ok? && r.value.Some? ==>
        r.value.value < comData.Length && comData[r.value.value].bb.Some? &&
        ClickInsideBox(comData[r.value.value].bb.value.rect, x, y)
      ensures r.Ok? ==> forall j :: 0 <= j < comData.Length && (r.value.None? || j < r.value.value) ==>
        comData[j].bb.Some? && !ClickInsideBox(comData[j].bb.value.rect, x, y)
      ensures r.Err? ==> exists j :: (0 <= j < comData.Length && comData[j].bb.None? &&
        forall k :: 0 <= k < j ==> comData[k].bb.Some? && !ClickInsideBox(comData[k].bb.value.rect, x, y))
    {
      for i := 0 to comData.Length
        invariant forall j :: 0 <= j < i ==> comData[j].bb.Some? && !ClickInsideBox(comData[j].bb.value.rect, x, y)
      {
        if comData[i].bb.None? {
          return Err(NoBoxError);
        }
        if ClickInsideBox(comData[i].bb.value.rect, x, y) {
          return Ok(Some(i));
        }
      }
      return Ok(None);
    }
  }
}
