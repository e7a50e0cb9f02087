/** The newer dimension manager: it builds the colour, shape and border strategies from
    the attribute list, reports the list to the legend, broadcasts `change` and
    `toColorless` to the strategies in that order, toggles the border attribute, and tells
    whether a new attribute list only uses known keys and values. */
module NodeDimensionStrat {
  import opened Wrappers
  import opened DimensionMaps
  import opened UserRecords
  import opened NodeConstants
  import opened ManagerStrats
  import opened AuxTypes
  import Nodes

  /** The state of the three strategies, in broadcast order (colour, shape, border). */
  datatype Strategies = Strategies(
    colorAttr: Option<DimAttribute>, colorMap: seq<(string, string)>,
    shapeAttr: Option<DimAttribute>, shapeMap: seq<(string, Nodes.ShapeData)>,
    borderAttr: Option<DimAttribute>, borderMap: seq<(string, string)>,
    nc: NodeConst)

  /** The strategies the constructor builds from an attribute list. */
  function StrategiesOf(attributes: seq<DimAttribute>, nc: NodeConst, getters: DimensionGetters): Strategies
  {
    var c := AttributeOf(attributes, Nodes.Color);
    var s := AttributeOf(attributes, Nodes.Shape);
    var b := AttributeOf(attributes, Nodes.Border);
    Strategies(c, DimensionMapOf(c, getters.getColor), s, DimensionMapOf(s, getters.getShape),
               b, DimensionMapOf(b, getters.getBorder), nc)
  }

  /** The record after `nodeToDefault(user, isFocus)`: colour, then shape, then border,
      whose `increasedSize` argument is left out and so is falsy. The colour step always
      creates a colour object, so the border step cannot throw here. */
  function DefaultOf(s: Strategies, u: UserFacts, v: Visual, isFocus: bool): Visual
  {
    var colored := ColorChanged(s.colorAttr, s.colorMap, s.nc, u, v);
    var shaped := ShapeChanged(s.shapeAttr, s.shapeMap, s.nc, u, colored, isFocus);
    BorderChanged(s.borderAttr, s.borderMap, s.nc, u, shaped, isFocus, false).value
  }

  /** The record after `nodeToColorless(user)`, or the TypeError of its border step. */
  function ColorlessOf(s: Strategies, u: UserFacts, v: Visual): Result<Visual>
  {
    var colored := ColorColorless(s.nc, u, v);
    var shaped := ShapeColorless(s.nc, u, colored);
    BorderColorless(s.borderAttr, s.nc, shaped)
  }

  /** After `nodeToDefault` the background is the colour strategy's and the border colour
      the border strategy's (colour runs first and replaces the whole colour object), and
      the border width never takes the focused-and-enlarged value: it is the colour-border
      width when the border attribute is active, else the default border width when
      focused, else 0. */
  lemma DefaultColorsAndWidth(s: Strategies, u: UserFacts, v: Visual, isFocus: bool)
    ensures var r := DefaultOf(s, u, v, isFocus);
      r.color.Some? &&
      r.color.value.background == ColorChanged(s.colorAttr, s.colorMap, s.nc, u, v).color.value.background &&
      r.color.value.border ==
        (if IsActive(s.borderAttr) then MappedValue(s.borderMap, u.explicitCommunity, s.borderAttr.value.key)
         else Some("black"))
    ensures DefaultOf(s, u, v, isFocus).borderWidth ==
      Some(if IsActive(s.borderAttr) then s.nc.defaultBorderColorWidth
           else if isFocus then s.nc.defaultBorderWidth else 0)
  {
  }

  /** Bringing a record to its default state twice is the same as once. */
  lemma DefaultIdempotent(s: Strategies, u: UserFacts, v: Visual, isFocus: bool)
    ensures DefaultOf(s, u, DefaultOf(s, u, v, isFocus), isFocus) == DefaultOf(s, u, v, isFocus)
  {
  }

  /** `nodeToColorless` throws exactly for an anonymous user that has no colour object yet
      (the colour step skips anonymous users and the border step then finds none). */
  lemma ColorlessThrowsOnlyForUncoloredAnonymous(s: Strategies, u: UserFacts, v: Visual)
    ensures ColorlessOf(s, u, v).Err? <==> u.isAnonimous && v.color.None?
    ensures var r := ColorlessOf(s, u, v);
      r.Ok? ==> (r.value.color.value.border == Some(s.nc.noFocusBorder) &&
        (!u.isAnonimous ==> r.value.color.value.background == Some(s.nc.noFocusBackground)))
  {
  }

  /** Greying a record out twice is the same as once. */
  lemma ColorlessIdempotent(s: Strategies, u: UserFacts, v: Visual)
    requires ColorlessOf(s, u, v).Ok?
    ensures ColorlessOf(s, u, ColorlessOf(s, u, v).value) == ColorlessOf(s, u, v)
  {
  }

  /** The defined strategy attributes in broadcast order, as `toggleBorderStat` collects
      them. */
  function DefinedAttributes(c: Option<DimAttribute>, s: Option<DimAttribute>, b: Option<DimAttribute>): (r: seq<DimAttribute>)
    ensures |r| <= 3
  {
    (if c.Some? then [c.value] else []) + (if s.Some? then [s.value] else []) + (if b.Some? then [b.value] else [])
  }

  /** `attributesArray.find(e => e.key === key)`. */
  function FirstWithKey(attributes: seq<DimAttribute>, key: string): Option<DimAttribute>
  {
    FirstWhere(attributes, (a: DimAttribute) => a.key == key)
  }

  /** The intended answer of `checkAttrDiferences`: the new list is non-empty, and each new
      attribute's key is known and all its values occur among the values of the first
      known attribute with that key. */
  predicate AttrsKnown(current: seq<DimAttribute>, news: seq<DimAttribute>)
  {
    |news| > 0 &&
    forall i :: 0 <= i < |news| ==>
      var found := FirstWithKey(current, news[i].key);
      found.Some? && forall v :: v in news[i].values ==> v in found.value.values
  }

  /** `checkAttrDiferences` as written: a value passes when `values.find(e => e === value)`
      is truthy, which the empty string never is. */
  predicate AttrsKnownAsWritten(current: seq<DimAttribute>, news: seq<DimAttribute>)
  {
    |news| > 0 &&
    forall i :: 0 <= i < |news| ==>
      var found := FirstWithKey(current, news[i].key);
      found.Some? && forall v :: v in news[i].values ==> v in found.value.values && v != ""
  }

  /** The two agree except on attribute lists holding the empty string as a value: an
      attribute list compared with itself is rejected as written when one of its values is
      `""`, and accepted by the intended check. */
  lemma EmptyValueRejectedAsWritten()
    ensures var attrs := [DimAttribute("country", ["", "Spain"], Nodes.Color, true)];
      AttrsKnown(attrs, attrs) && !AttrsKnownAsWritten(attrs, attrs)
    ensures forall current, news :: AttrsKnownAsWritten(current, news) ==> AttrsKnown(current, news)
  {
    var attrs := [DimAttribute("country", ["", "Spain"], Nodes.Color, true)];
    assert FirstWithKey(attrs, "country") == Some(attrs[0]);
    assert "" in attrs[0].values;
  }

  /** Every attribute list whose values are all non-empty gets the same answer from both. */
  lemma AsWrittenAgreesWithoutEmptyValues(current: seq<DimAttribute>, news: seq<DimAttribute>)
    requires forall i :: 0 <= i < |news| ==> "" !in news[i].values
    ensures AttrsKnownAsWritten(current, news) == AttrsKnown(current, news)
  {
  }

  /** `find` by key: the first attribute with the key, by a search loop. */
  method FindByKey(attributes: seq<DimAttribute>, key: string) returns (r: Option<DimAttribute>)
    ensures r == FirstWithKey(attributes, key)
  {
    for i := 0 to |attributes|
      invariant FirstWithKey(attributes, key) == FirstWithKey(attributes[i..], key)
    {
      assert attributes[i..][1..] == attributes[i + 1..];
      if attributes[i].key == key {
        return Some(attributes[i]);
      }
    }
    return None;
  }

  class NodeDimensionStrategy {
    const color: ColorStrategy
    const shape: ShapeStrategy
    const border: BorderStrategy
    var attributesArray: seq<DimAttribute>
    /** The actions passed to `setLegendData`, oldest first. */
    var legendActions: seq<LegendDataAction>

    /** The state of the strategies, in broadcast order. */
    function State(): Strategies
      reads border
    {
      Strategies(color.attr, color.dimensionMap, shape.attr, shape.dimensionMap, border.attr, border.dimensionMap, color.nc)
    }

    constructor (attributesArray: seq<DimAttribute>, nc: NodeConst, getters: DimensionGetters)
      ensures fresh(border)
      ensures State() == StrategiesOf(attributesArray, nc, getters) && shape.nc == nc && border.nc == nc
      ensures this.attributesArray == attributesArray
      ensures legendActions == [Dims(attributesArray)]
    {
      color := new ColorStrategy(attributesArray, nc, getters.getColor);
      shape := new ShapeStrategy(attributesArray, nc, getters.getShape);
      border := new BorderStrategy(attributesArray, nc, getters.getBorder);
      legendActions := [Dims(attributesArray)];
      this.attributesArray := attributesArray;
    }

    /** `nodeToDefault(user, isFocus)`. */
    method NodeToDefault(user: UserData, isFocus: bool)
      requires shape.nc == color.nc && border.nc == color.nc
      modifies user
      ensures user.Visuals() == DefaultOf(State(), user.Facts(), old(user.Visuals()), isFocus)
    {
      color.Change(user, isFocus);
      shape.Change(user, isFocus);
      var _ := border.Change(user, isFocus, false);
    }

    /** `nodeToColorless(user)`; the error is the TypeError that escapes it. */
    method NodeToColorless(user: UserData) returns (r: Result<()>)
      requires shape.nc == color.nc && border.nc == color.nc
      modifies user
      ensures var out := ColorlessOf(State(), user.Facts(), old(user.Visuals()));
        (r.Ok? <==> out.Ok?) && (out.Ok? ==> user.Visuals() == out.value)
    {
      color.ToColorless(user);
      shape.ToColorless(user);
      r := border.ToColorless(user);
    }

    /** `toggleBorderStat(newValue)`: only the border attribute has the border dimension,
        so only its `active` flag changes; the defined attributes go to the legend. */
    method ToggleBorderStat(newValue: bool)
      modifies this, border
      ensures border.attr == if old(border.attr).Some? then Some(old(border.attr).value.(active := newValue)) else None
      ensures attributesArray == old(attributesArray)
      ensures legendActions == old(legendActions) + [Dims(DefinedAttributes(color.attr, shape.attr, border.attr))]
    {
      if border.attr.Some? {
        border.attr := Some(border.attr.value.(active := newValue));
      }
      legendActions := legendActions + [Dims(DefinedAttributes(color.attr, shape.attr, border.attr))];
    }

    /** `checkAttrDiferences(newAttributes)`, with the value test made a membership test. */
    method CheckAttrDiferences(newAttributes: seq<DimAttribute>) returns (r: bool)
      ensures r == AttrsKnown(attributesArray, newAttributes)
    {
      if |newAttributes| <= 0 {
        return false;
      }
      for i := 0 to |newAttributes|
        invariant forall j :: 0 <= j < i ==>
          var found := FirstWithKey(attributesArray, newAttributes[j].key);
          found.Some? && forall v :: v in newAttributes[j].values ==> v in found.value.values
      {
        var attr := newAttributes[i];
        var foundKey := FindByKey(attributesArray, attr.key);
        if foundKey.Some? {
          for k := 0 to |attr.values|
            invariant forall m :: 0 <= m < k ==> attr.values[m] in foundKey.value.values
          {
            if attr.values[k] !in foundKey.value.values {
              return false;
            }
          }
        } else {
          return false;
        }
      }
      return true;
    }
  }
}
