/** The earlier version of the dimension manager: the same three strategies broadcast in
    the same order, but the legend callback receives the bare attribute list. */
module NodeDimensionStat {
  import opened Wrappers
  import opened UserRecords
  import opened NodeConstants
  import opened ManagerStrats
  import opened NodeDimensionStrat

  class NodeDimensionStrategy {
    const color: ColorStrategy
    const shape: ShapeStrategy
    const border: BorderStrategy
    /** The lists passed to `setLegendData`, oldest first. */
    var legendCalls: seq<seq<DimAttribute>>

    /** The state of the strategies, in broadcast order. */
    function State(): Strategies
      reads border
    {
      Strategies(color.attr, color.dimensionMap, shape.attr, shape.dimensionMap, border.attr, border.dimensionMap, color.nc)
    }

    constructor (attributesArray: seq<DimAttribute>, nc: NodeConst, getters: DimensionGetters)
      ensures fresh(border)
      ensures State() == StrategiesOf(attributesArray, nc, getters) && shape.nc == nc && border.nc == nc
      ensures legendCalls == [attributesArray]
    {
      color := new ColorStrategy(attributesArray, nc, getters.getColor);
      shape := new ShapeStrategy(attributesArray, nc, getters.getShape);
      border := new BorderStrategy(attributesArray, nc, getters.getBorder);
      legendCalls := [attributesArray];
    }

    /** `nodeToDefault(user, isFocus)`. */
    method NodeToDefault(user: UserData, isFocus: bool)
      requires shape.nc == color.nc && border.nc == color.nc
      modifies user
      ensures user.Visuals() == DefaultOf(State(), user.Facts(), old(user.Visuals()), isFocus)
    {
      color.Change(user, isFocus);
      shape.Change(user, isFocus);
      var _ := border.Change(user, isFocus, false);
    }

    /** `nodeToColorless(user)`; the error is the TypeError that escapes it. */
    method NodeToColorless(user: UserData) returns (r: Result<()>)
      requires shape.nc == color.nc && border.nc == color.nc
      modifies user
      ensures var out := ColorlessOf(State(), user.Facts(), old(user.Visuals()));
        (r.Ok? <==> out.Ok?) && (out.Ok? ==> user.Visuals() == out.value)
    {
      color.ToColorless(user);
      shape.ToColorless(user);
      r := border.ToColorless(user);
    }

    /** `toggleBorderStat(newValue)`: only the border attribute's `active` flag changes,
        and the defined attributes are passed to the legend callback. */
    method ToggleBorderStat(newValue: bool)
      modifies this, border
      ensures border.attr == if old(border.attr).Some? then Some(old(border.attr).value.(active := newValue)) else None
      ensures legendCalls == old(legendCalls) + [DefinedAttributes(color.attr, shape.attr, border.attr)]
    {
      if border.attr.Some? {
        border.attr := Some(border.attr.value.(active := newValue));
      }
      legendCalls := legendCalls + [DefinedAttributes(color.attr, shape.attr, border.attr)];
    }
  }
}
