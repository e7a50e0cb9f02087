/** Enumerations of the view options, the collapse reducer, the initial options and
    the view-options reducer. */
module ViewOptions {
  import opened Wrappers

  /** Where the list of perspectives comes from. */
  datatype EFileSource = Local | Api

  /** The four states a button can be in, in declaration order. */
  datatype EButtonState = Disabled | Unactive | Loading | Active

  /** Which of the two perspectives, if any, is collapsed. */
  datatype EAppCollapsedState = UnCollapsed | ToTheLeft | ToTheRight

  /** The enum index of a file source (`Local` = 0, `Api` = 1). */
  function FileSourceIndex(f: EFileSource): (i: nat)
    ensures i < 2
  {
    match f
    case Local => 0
    case Api => 1
  }

  /** The state after a collapse button press. */
  function CollapseReducer(state: EAppCollapsedState, action: EAppCollapsedState): EAppCollapsedState
  {
    if state == UnCollapsed then action
    else if (state == ToTheLeft && action == ToTheRight) || (state == ToTheRight && action == ToTheLeft) then UnCollapsed
    else state
  }

  /** From `unCollapsed` the action becomes the state; the two opposite collapses cancel;
      every other pair leaves a collapsed state as it is. */
  lemma CollapseReducerCases(state: EAppCollapsedState, action: EAppCollapsedState)
    ensures state == UnCollapsed ==> CollapseReducer(state, action) == action
    ensures state != UnCollapsed && state != action && action != UnCollapsed ==>
      CollapseReducer(state, action) == UnCollapsed
    ensures state != UnCollapsed && (action == state || action == UnCollapsed) ==>
      CollapseReducer(state, action) == state
  {
  }

  /** Pressing the opposite collapse button undoes a collapse. */
  lemma CollapseThenOppositeUndoes(first: EAppCollapsedState)
    requires first != UnCollapsed
    ensures CollapseReducer(CollapseReducer(UnCollapsed, first),
                            if first == ToTheLeft then ToTheRight else ToTheLeft) == UnCollapsed
  {
  }

  /** The initial options of the toolbar. */
  datatype InitialOptions = InitialOptions(
    fileSource: EFileSource,
    hideLabels: EButtonState,
    hideEdges: EButtonState,
    border: EButtonState,
    edgeThreshold: real,
    deleteEdges: int)

  const initialOptions := InitialOptions(Api, Active, Unactive, Unactive, 0.5, 75)

  /** A value stored in a view-options field. The reducer can store a number or a map in
      any field, and toggling a non-boolean field stores a boolean, so the fields are
      dynamically typed as in JavaScript. */
  datatype OptionValue = BoolV(b: bool) | NumV(n: real) | MapV(m: seq<(string, bool)>)

  /** JavaScript `!v`: numbers are falsy only when zero, maps are always truthy. */
  function Not(v: OptionValue): (r: bool)
    ensures v.BoolV? ==> r == !v.b
    ensures v.MapV? ==> !r
  {
    match v
    case BoolV(b) => !b
    case NumV(n) => n == 0.0
    case MapV(_) => false
  }

  /** The field names of `ViewOptions` (`keyof ViewOptions`). */
  datatype Field = HideLabels | HideEdges | Border | EdgeThreshold | DeleteEdges | LegendConfig

  /** The visualisation options. */
  datatype ViewOptions = ViewOptions(
    hideLabels: OptionValue,
    hideEdges: OptionValue,
    border: OptionValue,
    edgeThreshold: OptionValue,
    deleteEdges: OptionValue,
    legendConfig: OptionValue)
  {
    /** `state[field]`. */
    function Get(f: Field): OptionValue
    {
      match f
      case HideLabels => hideLabels
      case HideEdges => hideEdges
      case Border => border
      case EdgeThreshold => edgeThreshold
      case DeleteEdges => deleteEdges
      case LegendConfig => legendConfig
    }

    /** `{...state, [field]: v}`. */
    function Set(f: Field, v: OptionValue): (r: ViewOptions)
      ensures r.Get(f) == v
      ensures forall g :: g != f ==> r.Get(g) == Get(g)
    {
      match f
      case HideLabels => this.(hideLabels := v)
      case HideEdges => this.(hideEdges := v)
      case Border => this.(border := v)
      case EdgeThreshold => this.(edgeThreshold := v)
      case DeleteEdges => this.(deleteEdges := v)
      case LegendConfig => this.(legendConfig := v)
    }
  }

  /** `new ViewOptions()`: the boolean options are on iff their initial button is active. */
  function NewViewOptions(): (r: ViewOptions)
    ensures r.hideLabels == BoolV(true) && r.hideEdges == BoolV(false) && r.border == BoolV(false)
    ensures r.edgeThreshold == NumV(0.5) && r.deleteEdges == NumV(75 as real)
    ensures r.legendConfig == MapV([])
  {
    ViewOptions(
      BoolV(initialOptions.hideLabels == Active),
      BoolV(initialOptions.hideEdges == Active),
      BoolV(initialOptions.border == Active),
      NumV(initialOptions.edgeThreshold),
      NumV(initialOptions.deleteEdges as real),
      MapV([]))
  }

  /** The reducer's action: the field to update and the optional new value. */
  datatype ViewOptionAction = ViewOptionAction(updateType: Field, newValue: Option<OptionValue>)

  /** Without a value the named field is negated, otherwise it is replaced. */
  function ViewOptionsReducer(state: ViewOptions, action: ViewOptionAction): (r: ViewOptions)
    ensures action.newValue.None? ==> r.Get(action.updateType) == BoolV(Not(state.Get(action.updateType)))
    ensures action.newValue.Some? ==> r.Get(action.updateType) == action.newValue.value
    ensures forall g :: g != action.updateType ==> r.Get(g) == state.Get(g)
  {
    match action.newValue
    case None => state.Set(action.updateType, BoolV(Not(state.Get(action.updateType))))
    case Some(v) => state.Set(action.updateType, v)
  }

  /** Two states that agree on every field are the same state. */
  lemma FieldsDetermineState(a: ViewOptions, b: ViewOptions)
    requires forall g :: a.Get(g) == b.Get(g)
    ensures a == b
  {
    assert a.Get(HideLabels) == b.Get(HideLabels);
    assert a.Get(HideEdges) == b.Get(HideEdges);
    assert a.Get(Border) == b.Get(Border);
    assert a.Get(EdgeThreshold) == b.Get(EdgeThreshold);
    assert a.Get(DeleteEdges) == b.Get(DeleteEdges);
    assert a.Get(LegendConfig) == b.Get(LegendConfig);
  }

  /** Toggling a boolean field twice restores the original options. */
  lemma ToggleTwiceRestores(state: ViewOptions, f: Field)
    requires state.Get(f).BoolV?
    ensures ViewOptionsReducer(ViewOptionsReducer(state, ViewOptionAction(f, None)), ViewOptionAction(f, None)) == state
  {
    var twice := ViewOptionsReducer(ViewOptionsReducer(state, ViewOptionAction(f, None)), ViewOptionAction(f, None));
    FieldsDetermineState(twice, state);
  }

  /** Toggling the threshold of the initial options does not come back: `!0.5` is `false`
      and `!false` is `true`, so the number is lost. */
  lemma ToggleNumberLosesValue()
    ensures ViewOptionsReducer(ViewOptionsReducer(NewViewOptions(), ViewOptionAction(EdgeThreshold, None)),
                               ViewOptionAction(EdgeThreshold, None)).edgeThreshold == BoolV(true)
  {
  }
}
