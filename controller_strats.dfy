/** The colour and shape strategies of the controllers, built on the node constants of
    `namespaces/nodes.ts`: a strategy keeps the key of the first attribute of its
    dimension (no `active` flag here) and the map from that attribute's values to palette
    entries, and writes a user record's visual fields on `change` / `toColorless`. */
module ControllerStrats {
  import opened Wrappers
  import opened AssocMaps
  import opened DimensionMaps
  import opened UserRecords
  import opened Nodes

  const NoColorBackgroundError := "Cannot set properties of undefined (setting 'background')"

  /** The key the generic constructor keeps: that of the first attribute of the dimension. */
  function KeyOf(attributes: seq<DimAttribute>, dim: Dimensions): (r: Option<string>)
    ensures r.None? <==> forall i :: 0 <= i < |attributes| ==> attributes[i].dimension != dim
    ensures r.Some? ==> exists i :: (0 <= i < |attributes| && attributes[i].dimension == dim &&
      attributes[i].key == r.value && forall j :: 0 <= j < i ==> attributes[j].dimension != dim)
  {
    var p := (a: DimAttribute) => a.dimension == dim;
    var first := FirstWhere(attributes, p);
    if first.Some? then FirstWhereIsFirst(attributes, p); Some(first.value.key) else None
  }

  /** The map the generic constructor fills: empty when no attribute has the dimension. */
  function KeyedMapOf<T>(attributes: seq<DimAttribute>, dim: Dimensions, g: nat -> T): seq<(string, T)>
  {
    var first := FirstWhere(attributes, (a: DimAttribute) => a.dimension == dim);
    if first.Some? then MapOf(first.value.values, g) else []
  }

  /** The colour written by `change`: the mapped colour of the user's value when a key is
      set, else the default colour; the colour object is replaced and flagged as default. */
  function ColorApplied(key: Option<string>, dimensionMap: seq<(string, string)>, defaultColor: string,
                        u: UserFacts, v: Visual): Visual
  {
    var background := if key.Some? then MappedValue(dimensionMap, u.explicitCommunity, key.value) else Some(defaultColor);
    v.(color := Some(NodeColor(background, None)), defaultColor := Some(true))
  }

  /** `toColorless` of a colour strategy: the flag is cleared first, then the background
      of the existing colour object is set, which throws when there is none. */
  function ColorCleared(noFocusBackground: string, v: Visual): Result<Visual>
  {
    if v.color.None? then Err(NoColorBackgroundError)
    else Ok(v.(defaultColor := Some(false), color := Some(v.color.value.(background := Some(noFocusBackground)))))
  }

  /** The shape and label offsets written by `change`: the mapped shape of the user's value
      when a key is set (nothing when the value has no entry), else the default shape. */
  function ShapeApplied(key: Option<string>, dimensionMap: seq<(string, ShapeData)>, defaultShape: ShapeData,
                        u: UserFacts, v: Visual): Visual
  {
    if key.Some? then
      match MappedValue(dimensionMap, u.explicitCommunity, key.value)
      case None => v
      case Some(s) => v.(shape := Some(s.name), font := Some(Font(Some(s.vAdjust), Some(s.selectedVAdjust), None)))
    else
      v.(shape := Some(defaultShape.name),
         font := Some(Font(Some(defaultShape.vAdjust), Some(defaultShape.selectedVAdjust), None)))
  }

  /** `change` marks the record as default-coloured and replaces its colour object, whose
      background is the mapped colour exactly when a key is set; nothing else changes. */
  lemma ColorAppliedFacts(key: Option<string>, dimensionMap: seq<(string, string)>, defaultColor: string,
                          u: UserFacts, v: Visual)
    ensures var r := ColorApplied(key, dimensionMap, defaultColor, u, v);
      r.defaultColor == Some(true) && r.color.Some? && r.color.value.border.None? &&
      r == v.(color := r.color, defaultColor := r.defaultColor)
    ensures var r := ColorApplied(key, dimensionMap, defaultColor, u, v);
      r.color.value.background ==
        if key.Some? then MappedValue(dimensionMap, u.explicitCommunity, key.value) else Some(defaultColor)
  {
  }

  /** `toColorless` always clears the default flag, even when it then throws; it throws
      exactly when the record has no colour object, and otherwise keeps the border. */
  lemma ColorClearedFacts(noFocusBackground: string, v: Visual)
    ensures ColorCleared(noFocusBackground, v).Err? <==> v.color.None?
    ensures var r := ColorCleared(noFocusBackground, v);
      r.Ok? ==> (r.value.defaultColor == Some(false) && r.value.color.value.border == v.color.value.border &&
        r.value.color.value.background == Some(noFocusBackground))
  {
  }

  /** A key with a mapped value sets shape and both label offsets from it; a key whose
      value has no entry leaves the record as it was; no key gives the default shape. */
  lemma ShapeAppliedFacts(key: Option<string>, dimensionMap: seq<(string, ShapeData)>, defaultShape: ShapeData,
                          u: UserFacts, v: Visual)
    ensures var r := ShapeApplied(key, dimensionMap, defaultShape, u, v);
      r == v.(shape := r.shape, font := r.font)
    ensures key.None? ==> ShapeApplied(key, dimensionMap, defaultShape, u, v).shape == Some(defaultShape.name)
    ensures key.Some? && MappedValue(dimensionMap, u.explicitCommunity, key.value).None? ==>
      ShapeApplied(key, dimensionMap, defaultShape, u, v) == v
    ensures key.Some? && MappedValue(dimensionMap, u.explicitCommunity, key.value).Some? ==>
      var s := MappedValue(dimensionMap, u.explicitCommunity, key.value).value;
      ShapeApplied(key, dimensionMap, defaultShape, u, v).font == Some(Font(Some(s.vAdjust), Some(s.selectedVAdjust), None))
  {
  }

  class ColorStrategy {
    const key: Option<string>
    const dimensionMap: seq<(string, string)>

    constructor (attributes: seq<DimAttribute>)
      ensures key == KeyOf(attributes, Color)
      ensures dimensionMap == KeyedMapOf(attributes, Color, (n: nat) => GetColorOfN(n).value)
    {
      var attribute := FirstWhere(attributes, (a: DimAttribute) => a.dimension == Color);
      var m := [];
      var k := None;
      if attribute.Some? {
        k := Some(attribute.value.key);
        m := FillMap(attribute.value.values, (n: nat) => GetColorOfN(n).value);
      }
      key, dimensionMap := k, m;
    }

    /** `change(user)`. */
    method Change(user: UserData)
      modifies user
      ensures user.Visuals() == ColorApplied(key, dimensionMap, DefaultColor, user.Facts(), old(user.Visuals()))
    {
      if key.Some? {
        var value := Get(user.explicitCommunity, key.value);
        user.color := Some(NodeColor(if value.Some? then Get(dimensionMap, value.value) else None, None));
      } else {
        user.color := Some(NodeColor(Some(DefaultColor), None));
      }
      user.defaultColor := Some(true);
    }

    /** `toColorless(user)`; on the TypeError the flag has already been cleared. */
    method ToColorless(user: UserData) returns (r: Result<()>)
      modifies user
      ensures var out := ColorCleared(NoFocusBackground, old(user.Visuals()));
        (r.Ok? <==> out.Ok?) && (out.Ok? ==> user.Visuals() == out.value) &&
        (out.Err? ==> user.Visuals() == old(user.Visuals()).(defaultColor := Some(false)))
    {
      user.defaultColor := Some(false);
      if user.color.None? {
        return Err(NoColorBackgroundError);
      }
      user.color := Some(user.color.value.(background := Some(NoFocusBackground)));
      r := Ok(());
    }
  }

  class ShapeStrategy {
    const key: Option<string>
    const dimensionMap: seq<(string, ShapeData)>

    constructor (attributes: seq<DimAttribute>)
      ensures key == KeyOf(attributes, Shape)
      ensures dimensionMap == KeyedMapOf(attributes, Shape, (n: nat) => GetShapeOfN(n).value)
    {
      var attribute := FirstWhere(attributes, (a: DimAttribute) => a.dimension == Shape);
      var m := [];
      var k := None;
      if attribute.Some? {
        k := Some(attribute.value.key);
        m := FillMap(attribute.value.values, (n: nat) => GetShapeOfN(n).value);
      }
      key, dimensionMap := k, m;
    }

    /** `change(user)`: the shape rule, then the size is always the default size; the log
        line of a missing mapping is not modelled. */
    method Change(user: UserData)
      modifies user
      ensures user.Visuals() == ShapeApplied(key, dimensionMap, DefaultShape, user.Facts(), old(user.Visuals()))
                                  .(size := Some(DefaultSize))
      ensures user.size == Some(20)
    {
      if key.Some? {
        var value := Get(user.explicitCommunity, key.value);
        var shape := if value.Some? then Get(dimensionMap, value.value) else None;
        if shape.Some? {
          user.shape := Some(shape.value.name);
          user.font := Some(Font(Some(shape.value.vAdjust), Some(shape.value.selectedVAdjust), None));
        }
      } else {
        user.shape := Some(DefaultShape.name);
        user.font := Some(Font(Some(DefaultShape.vAdjust), Some(DefaultShape.selectedVAdjust), None));
      }
      user.size := Some(DefaultSize);
    }

    /** `toColorless()` does nothing. */
    method ToColorless(user: UserData)
      ensures user.Visuals() == old(user.Visuals())
    {
    }
  }
}
