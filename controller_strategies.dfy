/** The controllers' colour, shape and border strategies built on the node constants of
    `constants/nodesConstants.ts` (given here as a `NodeConst` record and the palette
    getters). The abstract base keeps the key of the first attribute of its dimension and
    fills the value map; `change` ignores the attribute's `active` flag. */
module ControllerStrategies {
  import opened Wrappers
  import opened AssocMaps
  import opened DimensionMaps
  import opened UserRecords
  import opened NodeConstants
  import Nodes
  import M = ManagerStrats
  import C = ControllerStrats

  const NoColorBorderError := "Cannot set properties of undefined (setting 'border')"

  /** The key the base constructor keeps: that of the first attribute of the dimension. */
  function KeyOf(attributes: seq<DimAttribute>, dim: Nodes.Dimensions): (r: Option<string>)
    ensures r.None? <==> forall i :: 0 <= i < |attributes| ==> attributes[i].dimension != dim
    ensures r.Some? ==> exists i :: (0 <= i < |attributes| && attributes[i].dimension == dim &&
      attributes[i].key == r.value && forall j :: 0 <= j < i ==> attributes[j].dimension != dim)
  {
    var attr := M.AttributeOf(attributes, dim);
    if attr.Some? then Some(attr.value.key) else None
  }

  /** The colour strategy's `change`: the colour rule of the other controllers, with both
      border widths reset to 0. */
  function ColorChanged(key: Option<string>, dimensionMap: seq<(string, string)>, nc: NodeConst,
                        u: UserFacts, v: Visual): Visual
  {
    C.ColorApplied(key, dimensionMap, nc.defaultColor, u, v).(borderWidth := Some(0), borderWidthSelected := Some(0))
  }

  /** The border strategy's `change`: it writes into the existing colour object (a
      TypeError without one) the mapped border colour when a key is set, else
      "transparent", with the matching pair of widths. */
  function BorderChanged(key: Option<string>, dimensionMap: seq<(string, string)>, nc: NodeConst,
                         u: UserFacts, v: Visual): Result<Visual>
  {
    if v.color.None? then Err(NoColorBorderError)
    else if key.Some? then
      Ok(v.(color := Some(v.color.value.(border := MappedValue(dimensionMap, u.explicitCommunity, key.value))),
            borderWidth := Some(nc.defaultBorderColorWidth), borderWidthSelected := Some(nc.selectedBorderColorWidth)))
    else
      Ok(v.(color := Some(v.color.value.(border := Some("transparent"))),
            borderWidth := Some(nc.defaultBorderWidth), borderWidthSelected := Some(nc.selectedBorderWidth)))
  }

  /** The border strategy's `toColorless`: it writes the no-focus border colour into the
      background of the existing colour object. */
  function BorderCleared(nc: NodeConst, v: Visual): Result<Visual>
  {
    if v.color.None? then Err(C.NoColorBackgroundError)
    else Ok(v.(color := Some(v.color.value.(background := Some(nc.noFocusBorder)))))
  }

  /** Colour `change` zeroes both border widths and otherwise behaves as the colour rule. */
  lemma ColorChangedFacts(key: Option<string>, dimensionMap: seq<(string, string)>, nc: NodeConst,
                          u: UserFacts, v: Visual)
    ensures var r := ColorChanged(key, dimensionMap, nc, u, v);
      r.borderWidth == Some(0) && r.borderWidthSelected == Some(0) && r.defaultColor == Some(true) &&
      r.color.Some? && r.color.value.border.None? &&
      r == v.(color := r.color, borderWidth := r.borderWidth, borderWidthSelected := r.borderWidthSelected,
              defaultColor := r.defaultColor)
    ensures ColorChanged(key, dimensionMap, nc, u, v).color.value.background ==
      if key.Some? then MappedValue(dimensionMap, u.explicitCommunity, key.value) else Some(nc.defaultColor)
  {
  }

  /** Border `change` throws exactly when there is no colour object; otherwise it keeps the
      background and sets the border and the two widths by whether a key is set. */
  lemma BorderChangedFacts(key: Option<string>, dimensionMap: seq<(string, string)>, nc: NodeConst,
                           u: UserFacts, v: Visual)
    ensures BorderChanged(key, dimensionMap, nc, u, v).Err? <==> v.color.None?
    ensures var r := BorderChanged(key, dimensionMap, nc, u, v);
      r.Ok? ==> (r.value.color.value.background == v.color.value.background &&
        r.value == v.(color := r.value.color, borderWidth := r.value.borderWidth,
                      borderWidthSelected := r.value.borderWidthSelected))
    ensures var r := BorderChanged(key, dimensionMap, nc, u, v);
      r.Ok? && key.None? ==> (r.value.color.value.border == Some("transparent") &&
        r.value.borderWidth == Some(nc.defaultBorderWidth) && r.value.borderWidthSelected == Some(nc.selectedBorderWidth))
    ensures var r := BorderChanged(key, dimensionMap, nc, u, v);
      r.Ok? && key.Some? ==> (r.value.color.value.border == MappedValue(dimensionMap, u.explicitCommunity, key.value) &&
        r.value.borderWidth == Some(nc.defaultBorderColorWidth) &&
        r.value.borderWidthSelected == Some(nc.selectedBorderColorWidth))
  {
  }

  /** Border `toColorless` leaves the border colour as it was and sets the background to
      the no-focus border colour. */
  lemma BorderClearedFacts(nc: NodeConst, v: Visual)
    ensures BorderCleared(nc, v).Err? <==> v.color.None?
    ensures var r := BorderCleared(nc, v);
      r.Ok? ==> (r.value.color.value.border == v.color.value.border &&
        r.value.color.value.background == Some(nc.noFocusBorder) && r.value == v.(color := r.value.color))
  {
  }

  class ColorStrategy {
    const key: Option<string>
    const dimensionMap: seq<(string, string)>
    const nc: NodeConst

    constructor (attributes: seq<DimAttribute>, nc: NodeConst, getColor: nat -> string)
      ensures key == KeyOf(attributes, Nodes.Color) && this.nc == nc
      ensures dimensionMap == M.DimensionMapOf(M.AttributeOf(attributes, Nodes.Color), getColor)
    {
      var attribute := M.AttributeOf(attributes, Nodes.Color);
      var m := [];
      var k := None;
      if attribute.Some? {
        k := Some(attribute.value.key);
        m := FillMap(attribute.value.values, getColor);
      }
      key, dimensionMap, this.nc := k, m, nc;
    }

    /** `change(user)`. */
    method Change(user: UserData)
      modifies user
      ensures user.Visuals() == ColorChanged(key, dimensionMap, nc, user.Facts(), old(user.Visuals()))
    {
      if key.Some? {
        var value := Get(user.explicitCommunity, key.value);
        user.color := Some(NodeColor(if value.Some? then Get(dimensionMap, value.value) else None, None));
      } else {
        user.color := Some(NodeColor(Some(nc.defaultColor), None));
      }
      user.borderWidth := Some(0);
      user.borderWidthSelected := Some(0);
      user.defaultColor := Some(true);
    }

    /** `toColorless(user)`; on the TypeError the flag has already been cleared. */
    method ToColorless(user: UserData) returns (r: Result<()>)
      modifies user
      ensures var out := C.ColorCleared(nc.noFocusBackground, old(user.Visuals()));
        (r.Ok? <==> out.Ok?) && (out.Ok? ==> user.Visuals() == out.value) &&
        (out.Err? ==> user.Visuals() == old(user.Visuals()).(defaultColor := Some(false)))
    {
      user.defaultColor := Some(false);
      if user.color.None? {
        return Err(C.NoColorBackgroundError);
      }
      user.color := Some(user.color.value.(background := Some(nc.noFocusBackground)));
      r := Ok(());
    }
  }

  class ShapeStrategy {
    const key: Option<string>
    const dimensionMap: seq<(string, Nodes.ShapeData)>
    const nc: NodeConst

    constructor (attributes: seq<DimAttribute>, nc: NodeConst, getShape: nat -> Nodes.ShapeData)
      ensures key == KeyOf(attributes, Nodes.Shape) && this.nc == nc
      ensures dimensionMap == M.DimensionMapOf(M.AttributeOf(attributes, Nodes.Shape), getShape)
    {
      var attribute := M.AttributeOf(attributes, Nodes.Shape);
      var m := [];
      var k := None;
      if attribute.Some? {
        k := Some(attribute.value.key);
        m := FillMap(attribute.value.values, getShape);
      }
      key, dimensionMap, this.nc := k, m, nc;
    }

    /** `change(user)`: the shape rule of the other controllers, without touching the size. */
    method Change(user: UserData)
      modifies user
      ensures user.Visuals() == C.ShapeApplied(key, dimensionMap, nc.defaultShape, user.Facts(), old(user.Visuals()))
    {
      if key.Some? {
        var value := Get(user.explicitCommunity, key.value);
        var shape := if value.Some? then Get(dimensionMap, value.value) else None;
        if shape.Some? {
          user.shape := Some(shape.value.name);
          user.font := Some(Font(Some(shape.value.vAdjust), Some(shape.value.selectedVAdjust), None));
        }
      } else {
        user.shape := Some(nc.defaultShape.name);
        user.font := Some(Font(Some(nc.defaultShape.vAdjust), Some(nc.defaultShape.selectedVAdjust), None));
      }
    }

    /** `toColorless()` does nothing. */
    method ToColorless(user: UserData)
      ensures user.Visuals() == old(user.Visuals())
    {
    }
  }

  class BorderStrategy {
    const key: Option<string>
    const dimensionMap: seq<(string, string)>
    const nc: NodeConst

    constructor (attributes: seq<DimAttribute>, nc: NodeConst, getBorder: nat -> string)
      ensures key == KeyOf(attributes, Nodes.Border) && this.nc == nc
      ensures dimensionMap == M.DimensionMapOf(M.AttributeOf(attributes, Nodes.Border), getBorder)
    {
      var attribute := M.AttributeOf(attributes, Nodes.Border);
      var m := [];
      var k := None;
      if attribute.Some? {
        k := Some(attribute.value.key);
        m := FillMap(attribute.value.values, getBorder);
      }
      key, dimensionMap, this.nc := k, m, nc;
    }

    /** `change(user)`; the error is the TypeError of a record without a colour object,
        which leaves the record untouched. */
    method Change(user: UserData) returns (r: Result<()>)
      modifies user
      ensures var out := BorderChanged(key, dimensionMap, nc, user.Facts(), old(user.Visuals()));
        (r.Ok? <==> out.Ok?) && (out.Ok? ==> user.Visuals() == out.value) &&
        (out.Err? ==> user.Visuals() == old(user.Visuals()))
    {
      if user.color.None? {
        return Err(NoColorBorderError);
      }
      if key.Some? {
        var value := Get(user.explicitCommunity, key.value);
        user.color := Some(user.color.value.(border := if value.Some? then Get(dimensionMap, value.value) else None));
        user.borderWidth := Some(nc.defaultBorderColorWidth);
        user.borderWidthSelected := Some(nc.selectedBorderColorWidth);
      } else {
        user.color := Some(user.color.value.(border := Some("transparent")));
        user.borderWidth := Some(nc.defaultBorderWidth);
        user.borderWidthSelected := Some(nc.selectedBorderWidth);
      }
      r := Ok(());
    }

    /** `toColorless(user)`. */
    method ToColorless(user: UserData) returns (r: Result<()>)
      modifies user
      ensures var out := BorderCleared(nc, old(user.Visuals()));
        (r.Ok? <==> out.Ok?) && (out.Ok? ==> user.Visuals() == out.value) &&
        (out.Err? ==> user.Visuals() == old(user.Visuals()))
    {
      if user.color.None? {
        return Err(C.NoColorBackgroundError);
      }
      user.color := Some(user.color.value.(background := Some(nc.noFocusBorder)));
      r := Ok(());
    }
  }
}
