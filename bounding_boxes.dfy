/** The bounding-box controller of the older perspective view: all boxes are computed
    at construction, one per implicit community, from the users' canvas positions. */
module BoundingBoxes {
  import opened Wrappers
  import opened JsOps
  import opened Boxes

  /** The part of a community this controller writes. */
  datatype Community = Community(bb: Option<BoundingBox>)

  /** A user's implicit community and size, with the canvas position the network reports
      for it. */
  datatype PlacedUser = PlacedUser(group: nat, size: real, x: real, y: real)

  const Palette: seq<BoxColor> := [
    BoxColor("rgba(248, 212, 251, 0.6)", "rgba(242, 169, 249, 1)", None, "Purple"),
    BoxColor("rgba(255, 255, 170, 0.6)", "rgba(255, 222, 120, 1)", None, "Yellow"),
    BoxColor("rgba(211, 245, 192, 0.6)", "rgba(169, 221, 140, 1)", None, "Green"),
    BoxColor("rgba(254, 212, 213, 0.6)", "rgba(252, 153, 156, 1)", None, "Red"),
    BoxColor("rgba(220, 235, 254, 0.6)", "rgba(168, 201, 248, 1)", None, "Blue"),
    BoxColor("rgba(250, 220, 185, 0.6)", "rgba(250, 169, 73, 1)", None, "Orange"),
    BoxColor("rgba(240, 240, 240, 0.6)", "rgba(230, 230, 230, 1)", None, "White"),
    BoxColor("rgba(10, 10, 10, 0.6)", "rgba(0, 0, 0, 1)", None, "Black")]

  /** One iteration of the `forEach`: the user's group gets its box set or extended. */
  function AddUser(c: Community, u: PlacedUser): (r: Community)
    ensures r.bb.Some?
    ensures Contains(r.bb.value.rect, NodeRect(u.x, u.y, u.size))
    ensures c.bb.Some? ==> Contains(r.bb.value.rect, c.bb.value.rect) && r.bb.value.color == c.bb.value.color
    ensures c.bb.None? ==> r.bb.value == BoundingBox(NodeRect(u.x, u.y, u.size), Palette[JsRem(u.group, 8)])
  {
    var nodeBB := NodeRect(u.x, u.y, u.size);
    match c.bb
    case None => Community(Some(BoundingBox(nodeBB, Palette[JsRem(u.group, 8)])))
    case Some(bb) => Community(Some(bb.(rect := Extend(bb.rect, nodeBB))))
  }

  /** Every user's group indexes the community list. */
  predicate GroupsInRange(users: seq<PlacedUser>, n: nat)
  {
    forall i :: 0 <= i < |users| ==> users[i].group < n
  }

  /** The community list after the first users have been processed, in order. */
  function Process(cs: seq<Community>, users: seq<PlacedUser>): (r: seq<Community>)
    requires GroupsInRange(users, |cs|)
    ensures |r| == |cs|
  {
    if users == [] then cs
    else
      var prev := Process(cs, users[..|users| - 1]);
      var u := users[|users| - 1];
      prev[u.group := AddUser(prev[u.group], u)]
  }

  /** Processing one more user updates only that user's group. */
  lemma ProcessStep(cs: seq<Community>, users: seq<PlacedUser>, k: nat)
    requires k < |users| && GroupsInRange(users[..k + 1], |cs|)
    ensures GroupsInRange(users[..k], |cs|)
    ensures Process(cs, users[..k + 1]) ==
      Process(cs, users[..k])[users[k].group := AddUser(Process(cs, users[..k])[users[k].group], users[k])]
  {
    assert users[..k + 1][..k] == users[..k];
    assert forall i :: 0 <= i < k ==> users[..k][i] == users[..k + 1][i];
  }

  /** After the fold, every processed user's padded box lies inside its group's box, a
      box that existed before still lies inside its group's box (boxes only grow), and a
      group with no users is untouched. */
  lemma {:induction false} ProcessCovers(cs: seq<Community>, users: seq<PlacedUser>, g: nat)
    requires GroupsInRange(users, |cs|) && g < |cs|
    ensures var r := Process(cs, users);
      (forall i :: 0 <= i < |users| && users[i].group == g ==>
        r[g].bb.Some? && Contains(r[g].bb.value.rect, NodeRect(users[i].x, users[i].y, users[i].size))) &&
      (cs[g].bb.Some? ==> r[g].bb.Some? && Contains(r[g].bb.value.rect, cs[g].bb.value.rect)) &&
      ((forall i :: 0 <= i < |users| ==> users[i].group != g) ==> r[g] == cs[g])
  {
    if users != [] {
      var init := users[..|users| - 1];
      assert GroupsInRange(init, |cs|);
      ProcessCovers(cs, init, g);
      assert forall i :: 0 <= i < |init| ==> init[i] == users[i];
    }
  }

  /** The first user of a group fixes the group's colour as `palette[group % 8]`, and
      later users never change it. */
  lemma {:induction false} ProcessColour(cs: seq<Community>, users: seq<PlacedUser>, g: nat)
    requires GroupsInRange(users, |cs|) && g < |cs| && cs[g].bb.None?
    ensures var r := Process(cs, users);
      (exists i :: 0 <= i < |users| && users[i].group == g) ==>
        r[g].bb.Some? && r[g].bb.value.color == Palette[JsRem(g, 8)]
  {
    if users != [] {
      var init := users[..|users| - 1];
      assert GroupsInRange(init, |cs|);
      ProcessColour(cs, init, g);
      assert forall i :: 0 <= i < |init| ==> init[i] == users[i];
      if !exists i :: 0 <= i < |init| && init[i].group == g {
        ProcessCovers(cs, init, g);
      }
    }
  }

  /** The index of the first user from `i` on whose group does not index a list of `n`
      communities, or the number of users when there is none. */
  function FirstOutOfRangeFrom(users: seq<PlacedUser>, n: nat, i: nat): (r: nat)
    requires i <= |users|
    ensures i <= r <= |users|
    ensures forall j :: i <= j < r ==> users[j].group < n
    ensures r < |users| ==> users[r].group >= n
    decreases |users| - i
  {
    if i == |users| || users[i].group >= n then i else FirstOutOfRangeFrom(users, n, i + 1)
  }

  /** How many users the `forEach` processes before it throws, or all of them. */
  function FirstOutOfRange(users: seq<PlacedUser>, n: nat): (r: nat)
    ensures r <= |users| && GroupsInRange(users[..r], n)
    ensures r < |users| ==> users[r].group >= n
    ensures r == |users| <==> GroupsInRange(users, n)
  {
    FirstOutOfRangeFrom(users, n, 0)
  }

  class BoundingBoxes {
    /** The communities of the network, shared with the caller. */
    var comData: array<Community>

    /** The first statement of the constructor: the community list is shared. */
    constructor(communityData: array<Community>)
      ensures comData == communityData
    {
      comData := communityData;
    }

    /** `new BoundingBoxes(communityData, uData, network)`: the constructor runs
        `calculateBoundingBoxes` over every user, in order, and throws at the first user
        whose group is past the end of the list, after the earlier users have been
        processed in the shared list. */
    static method Create(communityData: array<Community>, uData: seq<PlacedUser>) returns (r: Result<BoundingBoxes>)
      modifies communityData
      ensures var k := FirstOutOfRange(uData, communityData.Length);
        communityData[..] == Process(old(communityData[..]), uData[..k]) &&
        (r.Ok? <==> k == |uData|)
      ensures r.Ok? ==> fresh(r.value) && r.value.comData == communityData
      ensures r.Err? ==> r.error == NoCommunityError
    {
      var b := new BoundingBoxes(communityData);
      var done := b.CalculateBoundingBoxes(uData);
      if done.Err? {
        return Err(done.error);
      }
      r := Ok(b);
    }

    /** `calculateBoundingBoxes`: the `forEach` over the users, which throws a TypeError at
        the first user whose group does not index the community list; the users before it
        have been processed. */
    method CalculateBoundingBoxes(uData: seq<PlacedUser>) returns (r: Result<()>)
      modifies comData
      ensures var k := FirstOutOfRange(uData, comData.Length);
        comData[..] == Process(old(comData[..]), uData[..k]) && (r.Ok? <==> k == |uData|)
      ensures r.Err? ==> r.error == NoCommunityError
    {
      ghost var start := comData[..];
      for k := 0 to |uData|
        invariant FirstOutOfRangeFrom(uData, comData.Length, k) == FirstOutOfRange(uData, comData.Length)
        invariant GroupsInRange(uData[..k], comData.Length)
        invariant comData[..] == Process(start, uData[..k])
      {
        var user := uData[k];
        var group := user.group;
        if group >= comData.Length {
          return Err(NoCommunityError);
        }
        ProcessStep(start, uData, k);
        AddUserAt(user);
      }
      assert uData[..|uData|] == uData;
      r := Ok(());
    }

    /** `isBoundingBoxClicked`: the first community whose box strictly contains the point,
        or null; reaching a community without a box throws. */
    method IsBoundingBoxClicked(x: real, y: real) returns (r: Result<Option<nat>>)
      ensures r.Ok? && r.value.Some? ==>
        r.value.value < comData.Length && comData[r.value.value].bb.Some? &&
        ClickInsideBox(comData[r.value.value].bb.value.rect, x, y)
      ensures r.Ok? ==> forall j :: 0 <= j < comData.Length && (r.value.None? || j < r.value.value) ==>
        comData[j].bb.Some? && !ClickInsideBox(comData[j].bb.value.rect, x, y)
      ensures r.Err? ==> exists j :: (0 <= j < comData.Length && comData[j].bb.None? &&
        forall k :: 0 <= k < j ==> comData[k].bb.Some? && !ClickInsideBox(comData[k].bb.value.rect, x, y))
    {
      for i := 0 to comData.Length
        invariant forall j :: 0 <= j < i ==> comData[j].bb.Some? && !ClickInsideBox(comData[j].bb.value.rect, x, y)
      {
        if comData[i].bb.None? {
          return Err(NoBoxError);
        }
        if ClickInsideBox(comData[i].bb.value.rect, x, y) {
          return Ok(Some(i));
        }
      }
      return Ok(None);
    }

    /** The body of the `forEach` for one user whose group indexes the list: the group's
        box is created, or extended to cover the user's padded box. */
    method AddUserAt(user: PlacedUser)
      requires user.group < comData.Length
      modifies comData
      ensures comData[..] == old(comData[..])[user.group := AddUser(old(comData[user.group]), user)]
    {
      var group := user.group;
      var nodeBB := Rect(user.y - user.size / 2.0 - Padding, user.y + user.size / 2.0 + Padding,
                         user.x - user.size / 2.0 - Padding, user.x + user.size / 2.0 + Padding);
      var c := comData[group];
      if c.bb.None? {
        comData[group] := Community(Some(BoundingBox(nodeBB, Palette[JsRem(group, |Palette|)])));
      } else {
        var bb := c.bb.value.rect;
        if nodeBB.left < bb.left {
          bb := bb.(left := nodeBB.left);
        }
        if nodeBB.top < bb.top {
          bb := bb.(top := nodeBB.top);
        }
        if nodeBB.right > bb.right {
          bb := bb.(right := nodeBB.right);
        }
        if nodeBB.bottom > bb.bottom {
          bb := bb.(bottom := nodeBB.bottom);
        }
        comData[group] := Community(Some(c.bb.value.(rect := bb)));
      }
      assert comData[group] == AddUser(c, user);
    }
  }
}
