/** The colour, shape and border strategies the newer dimension manager applies to user
    records. Each picks the first attribute of its dimension, maps that attribute's values
    to dimension values by index, and on `change` / `toColorless` writes the record's
    visual fields according to whether the attribute is active. */
module ManagerStrats {
  import opened Wrappers
  import opened AssocMaps
  import opened DimensionMaps
  import opened UserRecords
  import opened NodeConstants
  import Nodes

  const UnknownImage := "../../images/unknown.svg"
  const ColorlessUnknownImage := "../../images/colorlessUnknown.svg"
  const NoColorError := "Cannot set properties of undefined (setting 'border')"

  /** `attributesArray.filter(attr => attr.dimension === dimension)[0]`. */
  function AttributeOf(attributes: seq<DimAttribute>, dim: Nodes.Dimensions): (r: Option<DimAttribute>)
    ensures r.Some? ==> r.value.dimension == dim && r.value in attributes
    ensures r.None? <==> forall i :: 0 <= i < |attributes| ==> attributes[i].dimension != dim
    ensures r.Some? ==> exists i :: (0 <= i < |attributes| && attributes[i] == r.value &&
      forall j :: 0 <= j < i ==> attributes[j].dimension != dim)
  {
    var p := (a: DimAttribute) => a.dimension == dim;
    var first := FirstWhere(attributes, p);
    if first.Some? then FirstWhereIsFirst(attributes, p); first else first
  }

  /** The map a strategy builds in its constructor: empty without an attribute. */
  function DimensionMapOf<T>(attr: Option<DimAttribute>, g: nat -> T): seq<(string, T)>
  {
    if attr.Some? then MapOf(attr.value.values, g) else []
  }

  /** `this.attr !== undefined && this.attr.active`. */
  predicate IsActive(attr: Option<DimAttribute>)
  {
    attr.Some? && attr.value.active
  }

  // ---------------------------------------------------------------- colour

  /** The record after the colour strategy's `change`. */
  function ColorChanged(attr: Option<DimAttribute>, dimensionMap: seq<(string, string)>, nc: NodeConst,
                        u: UserFacts, v: Visual): Visual
  {
    if IsActive(attr) && !u.isAnonimous then
      v.(color := Some(NodeColor(MappedValue(dimensionMap, u.explicitCommunity, attr.value.key), None)))
    else
      v.(color := Some(NodeColor(Some(nc.defaultColor), None)))
  }

  /** The record after the colour strategy's `toColorless`. */
  function ColorColorless(nc: NodeConst, u: UserFacts, v: Visual): Visual
  {
    if u.isAnonimous then v
    else if v.color.None? then v.(color := Some(NodeColor(Some(nc.noFocusBackground), None)))
    else v.(color := Some(v.color.value.(background := Some(nc.noFocusBackground))))
  }

  /** `change` replaces the whole colour object: the background is the mapped colour of the
      user's value exactly when the attribute is active and the user is not anonymous,
      otherwise the default colour; any previous border is dropped, and nothing else
      changes. */
  lemma ColorChangedFacts(attr: Option<DimAttribute>, dimensionMap: seq<(string, string)>, nc: NodeConst,
                          u: UserFacts, v: Visual)
    ensures var r := ColorChanged(attr, dimensionMap, nc, u, v);
      r.color.Some? && r.color.value.border.None? && r == v.(color := r.color)
    ensures var r := ColorChanged(attr, dimensionMap, nc, u, v);
      IsActive(attr) && !u.isAnonimous ==>
        r.color.value.background == MappedValue(dimensionMap, u.explicitCommunity, attr.value.key)
    ensures var r := ColorChanged(attr, dimensionMap, nc, u, v);
      !(IsActive(attr) && !u.isAnonimous) ==> r.color.value.background == Some(nc.defaultColor)
  {
  }

  /** `toColorless` leaves anonymous users alone; for the others it sets only the
      background, to the no-focus colour, keeping an existing border. */
  lemma ColorColorlessFacts(nc: NodeConst, u: UserFacts, v: Visual)
    ensures u.isAnonimous ==> ColorColorless(nc, u, v) == v
    ensures var r := ColorColorless(nc, u, v);
      !u.isAnonimous ==> (r.color.Some? && r.color.value.background == Some(nc.noFocusBackground) &&
        r.color.value.border == (if v.color.Some? then v.color.value.border else None) &&
        r == v.(color := r.color))
  {
  }

  class ColorStrategy {
    const attr: Option<DimAttribute>
    const dimensionMap: seq<(string, string)>
    const nc: NodeConst

    constructor (attributes: seq<DimAttribute>, nc: NodeConst, getColor: nat -> string)
      ensures attr == AttributeOf(attributes, Nodes.Color)
      ensures dimensionMap == DimensionMapOf(attr, getColor) && this.nc == nc
    {
      var a := AttributeOf(attributes, Nodes.Color);
      var m := [];
      if a.Some? {
        m := FillMap(a.value.values, getColor);
      }
      attr, dimensionMap, this.nc := a, m, nc;
    }

    /** `change(user, isFocus)`. */
    method Change(user: UserData, isFocus: bool)
      modifies user
      ensures user.Visuals() == ColorChanged(attr, dimensionMap, nc, user.Facts(), old(user.Visuals()))
    {
      if attr.Some? && attr.value.active && !user.isAnonimous {
        var value := Get(user.explicitCommunity, attr.value.key);
        var background := if value.Some? then Get(dimensionMap, value.value) else None;
        user.color := Some(NodeColor(background, None));
      } else {
        user.color := Some(NodeColor(Some(nc.defaultColor), None));
      }
    }

    /** `toColorless(user)`. */
    method ToColorless(user: UserData)
      modifies user
      ensures user.Visuals() == ColorColorless(nc, user.Facts(), old(user.Visuals()))
    {
      if !user.isAnonimous {
        if user.color.None? {
          user.color := Some(NodeColor(Some(nc.noFocusBackground), None));
        } else {
          user.color := Some(user.color.value.(background := Some(nc.noFocusBackground)));
        }
      }
    }
  }

  // ---------------------------------------------------------------- shape

  /** The size `change` gives: selected, else medoid, else default, plus the increase for
      anonymous users. */
  function ChangedSize(nc: NodeConst, u: UserFacts, isFocus: bool): int
  {
    var base := if isFocus then nc.selectedSize else if u.isMedoid then nc.medoidSize else nc.defaultSize;
    if u.isAnonimous then base + nc.anonimousSizeIncrease else base
  }

  /** The record after the shape strategy's `change`. */
  function ShapeChanged(attr: Option<DimAttribute>, dimensionMap: seq<(string, Nodes.ShapeData)>, nc: NodeConst,
                        u: UserFacts, v: Visual, isFocus: bool): Visual
  {
    var shaped :=
      if IsActive(attr) then
        if u.isAnonGroup then
          v.(shape := Some(nc.defaultShape.name), font := Some(Font(Some(nc.defaultShape.vAdjust), None, None)))
        else if u.isAnonimous then
          v.(shape := Some("image"), image := Some(UnknownImage))
        else
          match MappedValue(dimensionMap, u.explicitCommunity, attr.value.key)
          case None => v
          case Some(s) => v.(shape := Some(s.name), font := Some(Font(Some(s.vAdjust), None, None)))
      else
        v.(shape := Some(nc.defaultShape.name), font := Some(Font(Some(nc.defaultShape.vAdjust), None, None)));
    shaped.(size := Some(ChangedSize(nc, u, isFocus)))
  }

  /** The record after the shape strategy's `toColorless`. */
  function ShapeColorless(nc: NodeConst, u: UserFacts, v: Visual): Visual
  {
    var sized := v.(size := Some(if u.isAnonimous then nc.defaultSize + nc.anonimousSizeIncrease else nc.defaultSize));
    if u.isAnonimous && !u.isAnonGroup then sized.(image := Some(ColorlessUnknownImage)) else sized
  }

  /** Which shape `change` picks: the anonymous group gets the default shape, other
      anonymous users the unknown-user image, the rest their mapped shape (nothing changes
      but the size when the mapping is missing); an inactive attribute gives the default
      shape. The size rule holds in every case, and colour and border are untouched. */
  lemma ShapeChangedFacts(attr: Option<DimAttribute>, dimensionMap: seq<(string, Nodes.ShapeData)>, nc: NodeConst,
                          u: UserFacts, v: Visual, isFocus: bool)
    ensures var r := ShapeChanged(attr, dimensionMap, nc, u, v, isFocus);
      r.size == Some(ChangedSize(nc, u, isFocus)) && r.color == v.color && r.borderWidth == v.borderWidth
    ensures var r := ShapeChanged(attr, dimensionMap, nc, u, v, isFocus);
      !IsActive(attr) || u.isAnonGroup ==>
        r.shape == Some(nc.defaultShape.name) && r.font == Some(Font(Some(nc.defaultShape.vAdjust), None, None))
    ensures var r := ShapeChanged(attr, dimensionMap, nc, u, v, isFocus);
      IsActive(attr) && !u.isAnonGroup && u.isAnonimous ==> r.shape == Some("image") && r.image == Some(UnknownImage)
    ensures var r := ShapeChanged(attr, dimensionMap, nc, u, v, isFocus);
      IsActive(attr) && !u.isAnonGroup && !u.isAnonimous ==>
        var s := MappedValue(dimensionMap, u.explicitCommunity, attr.value.key);
        (s.None? ==> r == v.(size := r.size)) &&
        (s.Some? ==> r.shape == Some(s.value.name) && r.font == Some(Font(Some(s.value.vAdjust), None, None)))
  {
  }

  /** Anonymous users are always larger than the others by the same increase. */
  lemma AnonymousSizeIncrease(nc: NodeConst, u: UserFacts, isFocus: bool)
    requires u.isAnonimous
    ensures ChangedSize(nc, u, isFocus) == ChangedSize(nc, u.(isAnonimous := false), isFocus) + nc.anonimousSizeIncrease
  {
  }

  class ShapeStrategy {
    const attr: Option<DimAttribute>
    const dimensionMap: seq<(string, Nodes.ShapeData)>
    const nc: NodeConst

    constructor (attributes: seq<DimAttribute>, nc: NodeConst, getShape: nat -> Nodes.ShapeData)
      ensures attr == AttributeOf(attributes, Nodes.Shape)
      ensures dimensionMap == DimensionMapOf(attr, getShape) && this.nc == nc
    {
      var a := AttributeOf(attributes, Nodes.Shape);
      var m := [];
      if a.Some? {
        m := FillMap(a.value.values, getShape);
      }
      attr, dimensionMap, this.nc := a, m, nc;
    }

    /** `change(user, isFocus)`; the log line of a missing mapping is not modelled. */
    method Change(user: UserData, isFocus: bool)
      modifies user
      ensures user.Visuals() == ShapeChanged(attr, dimensionMap, nc, user.Facts(), old(user.Visuals()), isFocus)
    {
      if attr.Some? && attr.value.active {
        if user.isAnonGroup {
          user.shape := Some(nc.defaultShape.name);
          user.font := Some(Font(Some(nc.defaultShape.vAdjust), None, None));
        } else if user.isAnonimous {
          user.shape := Some("image");
          user.image := Some(UnknownImage);
        } else {
          var value := Get(user.explicitCommunity, attr.value.key);
          var shape := if value.Some? then Get(dimensionMap, value.value) else None;
          if shape.Some? {
            user.shape := Some(shape.value.name);
            user.font := Some(Font(Some(shape.value.vAdjust), None, None));
          }
        }
      } else {
        user.shape := Some(nc.defaultShape.name);
        user.font := Some(Font(Some(nc.defaultShape.vAdjust), None, None));
      }
      var size;
      if isFocus {
        size := nc.selectedSize;
      } else if user.isMedoid {
        size := nc.medoidSize;
      } else {
        size := nc.defaultSize;
      }
      user.size := Some(if user.isAnonimous then size + nc.anonimousSizeIncrease else size);
    }

    /** `toColorless(user)`. */
    method ToColorless(user: UserData)
      modifies user
      ensures user.Visuals() == ShapeColorless(nc, user.Facts(), old(user.Visuals()))
    {
      user.size := Some(if user.isAnonimous then nc.defaultSize + nc.anonimousSizeIncrease else nc.defaultSize);
      if user.isAnonimous && !user.isAnonGroup {
        user.image := Some(ColorlessUnknownImage);
      }
    }
  }

  // ---------------------------------------------------------------- border

  /** The width `change` gives the border. */
  function ChangedBorderWidth(attr: Option<DimAttribute>, nc: NodeConst, isFocus: bool, increasedSize: bool): int
  {
    if IsActive(attr) then
      (if isFocus && increasedSize then nc.selectedBorderColorWidth else nc.defaultBorderColorWidth)
    else if isFocus then
      (if increasedSize then nc.selectedBorderWidth else nc.defaultBorderWidth)
    else 0
  }

  /** The record after the border strategy's `change`, or the TypeError it throws when the
      record has no colour object. */
  function BorderChanged(attr: Option<DimAttribute>, dimensionMap: seq<(string, string)>, nc: NodeConst,
                         u: UserFacts, v: Visual, isFocus: bool, increasedSize: bool): Result<Visual>
  {
    if v.color.None? then Err(NoColorError)
    else
      var border := if IsActive(attr) then MappedValue(dimensionMap, u.explicitCommunity, attr.value.key) else Some("black");
      Ok(v.(color := Some(v.color.value.(border := border)),
            borderWidth := Some(ChangedBorderWidth(attr, nc, isFocus, increasedSize))))
  }

  /** The record after the border strategy's `toColorless`, or its TypeError. */
  function BorderColorless(attr: Option<DimAttribute>, nc: NodeConst, v: Visual): Result<Visual>
  {
    if v.color.None? then Err(NoColorError)
    else
      Ok(v.(color := Some(v.color.value.(border := Some(nc.noFocusBorder))),
            borderWidth := Some(if IsActive(attr) then nc.defaultBorderColorWidth else 0)))
  }

  /** `change` throws exactly when the record has no colour object; otherwise it writes
      the border colour (mapped when active, black when not) and the width, keeps the
      background and changes nothing else. */
  lemma BorderChangedFacts(attr: Option<DimAttribute>, dimensionMap: seq<(string, string)>, nc: NodeConst,
                           u: UserFacts, v: Visual, isFocus: bool, increasedSize: bool)
    ensures BorderChanged(attr, dimensionMap, nc, u, v, isFocus, increasedSize).Ok? <==> v.color.Some?
    ensures var r := BorderChanged(attr, dimensionMap, nc, u, v, isFocus, increasedSize);
      r.Ok? ==> (r.value.color.Some? && r.value.color.value.background == v.color.value.background &&
        r.value == v.(color := r.value.color, borderWidth := r.value.borderWidth) &&
        r.value.color.value.border ==
          (if IsActive(attr) then MappedValue(dimensionMap, u.explicitCommunity, attr.value.key) else Some("black")))
    ensures IsActive(attr) ==>
      (ChangedBorderWidth(attr, nc, isFocus, increasedSize) == nc.selectedBorderColorWidth ||
       ChangedBorderWidth(attr, nc, isFocus, increasedSize) == nc.defaultBorderColorWidth)
    ensures !isFocus && !IsActive(attr) ==> ChangedBorderWidth(attr, nc, isFocus, increasedSize) == 0
  {
  }

  class BorderStrategy {
    var attr: Option<DimAttribute>
    const dimensionMap: seq<(string, string)>
    const nc: NodeConst

    constructor (attributes: seq<DimAttribute>, nc: NodeConst, getBorder: nat -> string)
      ensures attr == AttributeOf(attributes, Nodes.Border)
      ensures dimensionMap == DimensionMapOf(attr, getBorder) && this.nc == nc
    {
      var a := AttributeOf(attributes, Nodes.Border);
      var m := [];
      if a.Some? {
        m := FillMap(a.value.values, getBorder);
      }
      attr, dimensionMap, this.nc := a, m, nc;
    }

    /** `change(user, isFocus, increasedSize)`. */
    method Change(user: UserData, isFocus: bool, increasedSize: bool) returns (r: Result<()>)
      modifies user
      ensures var out := BorderChanged(attr, dimensionMap, nc, user.Facts(), old(user.Visuals()), isFocus, increasedSize);
        (r.Ok? <==> out.Ok?) && (out.Ok? ==> user.Visuals() == out.value) &&
        (out.Err? ==> r.error == out.error && user.Visuals() == old(user.Visuals()))
    {
      if user.color.None? {
        return Err(NoColorError);
      }
      if attr.Some? && attr.value.active {
        var value := Get(user.explicitCommunity, attr.value.key);
        var border := if value.Some? then Get(dimensionMap, value.value) else None;
        user.color := Some(user.color.value.(border := border));
        if isFocus && increasedSize {
          user.borderWidth := Some(nc.selectedBorderColorWidth);
        } else {
          user.borderWidth := Some(nc.defaultBorderColorWidth);
        }
      } else {
        user.color := Some(user.color.value.(border := Some("black")));
        if isFocus {
          if increasedSize {
            user.borderWidth := Some(nc.selectedBorderWidth);
          } else {
            user.borderWidth := Some(nc.defaultBorderWidth);
          }
        } else {
          user.borderWidth := Some(0);
        }
      }
      r := Ok(());
    }

    /** `toColorless(user)`. */
    method ToColorless(user: UserData) returns (r: Result<()>)
      modifies user
      ensures var out := BorderColorless(attr, nc, old(user.Visuals()));
        (r.Ok? <==> out.Ok?) && (out.Ok? ==> user.Visuals() == out.value) &&
        (out.Err? ==> r.error == out.error && user.Visuals() == old(user.Visuals()))
    {
      if user.color.None? {
        return Err(NoColorError);
      }
      user.color := Some(user.color.value.(border := Some(nc.noFocusBorder)));
      if attr.Some? && attr.value.active {
        user.borderWidth := Some(nc.defaultBorderColorWidth);
      } else {
        user.borderWidth := Some(0);
      }
      r := Ok(());
    }
  }
}
