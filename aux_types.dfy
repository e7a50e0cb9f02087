/** The reducers behind the application's small pieces of React state: legend data,
    the selected object and arrays of button states. */
module AuxTypes {
  import opened Wrappers
  import opened ViewOptions
  import opened NodeConstants

  // ---------------------------------------------------------------- legend data

  /** The data the legend shows. */
  datatype LegendData = LegendData(dims: seq<DimAttribute>, anonymous: bool, anonGroup: bool)

  /** A legend action: `dims`, `anon` and `anonGroup` carry the new field value. */
  datatype LegendDataAction = Dims(newDims: seq<DimAttribute>) | Anon(newAnon: bool) | AnonGroup(newAnonGroup: bool) | Reset

  const EmptyLegend := LegendData([], false, false)

  /** The legend data the reducer returns. */
  function LegendAfter(d: LegendData, a: LegendDataAction): LegendData
  {
    match a
    case Dims(ds) => d.(dims := ds)
    case Anon(b) => d.(anonymous := b)
    case AnonGroup(b) => d.(anonGroup := b)
    case Reset => EmptyLegend
  }

  /** Each setting action changes exactly its own field; `reset` ignores the old state. */
  lemma LegendActionsChangeOneField(d: LegendData, a: LegendDataAction)
    ensures a.Dims? ==> LegendAfter(d, a) == LegendData(a.newDims, d.anonymous, d.anonGroup)
    ensures a.Anon? ==> LegendAfter(d, a) == LegendData(d.dims, a.newAnon, d.anonGroup)
    ensures a.AnonGroup? ==> LegendAfter(d, a) == LegendData(d.dims, d.anonymous, a.newAnonGroup)
    ensures a.Reset? ==> LegendAfter(d, a) == LegendData([], false, false)
  {
  }

  /** Applying the same setting action twice is the same as applying it once. */
  lemma LegendActionIdempotent(d: LegendData, a: LegendDataAction)
    ensures LegendAfter(LegendAfter(d, a), a) == LegendAfter(d, a)
  {
  }

  /** The legend state object the reducer receives. The reducer assigns the field named by
      the action on this object and returns a deep copy of it. */
  class LegendState {
    var dims: seq<DimAttribute>
    var anonymous: bool
    var anonGroup: bool

    function Value(): LegendData
      reads this
    {
      LegendData(dims, anonymous, anonGroup)
    }

    constructor (d: LegendData)
      ensures Value() == d
    {
      dims, anonymous, anonGroup := d.dims, d.anonymous, d.anonGroup;
    }

    /** `legendDataReducer(this, a)`: `reset` returns a fresh empty legend and leaves this
        object alone; the other actions assign one field here first. */
    method Reduce(a: LegendDataAction) returns (r: LegendData)
      modifies this
      ensures r == LegendAfter(old(Value()), a)
      ensures a.Reset? ==> Value() == old(Value())
      ensures !a.Reset? ==> Value() == r
    {
      match a {
        case Dims(ds) => dims := ds;
        case Anon(b) => anonymous := b;
        case AnonGroup(b) => anonGroup := b;
        case Reset => return EmptyLegend;
      }
      r := Value();
    }
  }

  // ---------------------------------------------------------------- selected object

  /** A point on the canvas. */
  datatype Point = Point(x: real, y: real)

  /** The object selected by the user (a community or a user node, of type `O`), where it
      was clicked, and which perspective it came from. */
  datatype SelectedObject<O> = SelectedObject(obj: Option<O>, position: Option<Point>, sourceID: Option<string>)

  /** The three selected-object actions with their payloads. */
  datatype SelectedObjectAction<O> =
    | PositionAction(newPosition: Option<Point>)
    | ObjectAction(newObj: Option<O>, newSourceID: string)
    | ClearAction

  /** `selectedObjectReducer`: `position` spreads the old state (or nothing) and replaces
      the position; `object` keeps only the old position; `clear` yields `undefined`. */
  function SelectedObjectReducer<O>(state: Option<SelectedObject<O>>, a: SelectedObjectAction<O>): Option<SelectedObject<O>>
  {
    match a
    case PositionAction(p) =>
      (match state
       case None => Some(SelectedObject(None, p, None))
       case Some(s) => Some(s.(position := p)))
    case ObjectAction(o, id) =>
      Some(SelectedObject(o, if state.Some? then state.value.position else None, Some(id)))
    case ClearAction => None
  }

  /** `position` keeps object and source; `object` keeps the position and replaces the
      rest; `clear` always gives `undefined`. */
  lemma SelectedObjectReducerFrames<O>(state: Option<SelectedObject<O>>, a: SelectedObjectAction<O>)
    ensures a.PositionAction? ==>
      (SelectedObjectReducer(state, a).Some? &&
       SelectedObjectReducer(state, a).value.position == a.newPosition &&
       SelectedObjectReducer(state, a).value.obj == (if state.Some? then state.value.obj else None) &&
       SelectedObjectReducer(state, a).value.sourceID == (if state.Some? then state.value.sourceID else None))
    ensures a.ObjectAction? ==>
      (SelectedObjectReducer(state, a) ==
       Some(SelectedObject(a.newObj, if state.Some? then state.value.position else None, Some(a.newSourceID))))
    ensures a.ClearAction? ==> SelectedObjectReducer(state, a).None?
  {
  }

  /** A new position followed by a new object keeps that position. */
  lemma PositionSurvivesObjectChange<O>(state: Option<SelectedObject<O>>, p: Point, o: O, id: string)
    ensures SelectedObjectReducer(SelectedObjectReducer(state, PositionAction(Some(p))), ObjectAction(Some(o), id))
         == Some(SelectedObject(Some(o), Some(p), Some(id)))
  {
  }

  // ---------------------------------------------------------------- button state arrays

  datatype BStateArrayKind = ChangeOne | ActiveOne | ResetStates

  /** A button-state array action. */
  datatype BStateArrayAction = BStateArrayAction(action: BStateArrayKind, index: int, newState: EButtonState)

  /** The array the reducer returns for state `s`. */
  function ButtonStatesAfter(s: seq<EButtonState>, a: BStateArrayAction): (r: seq<EButtonState>)
    requires a.action != ResetStates ==> 0 <= a.index < |s|
    requires a.action == ResetStates ==> a.index >= 0
  {
    match a.action
    case ChangeOne => s[a.index := a.newState]
    case ActiveOne => seq(|s|, i => if i == a.index then a.newState else Unactive)
    case ResetStates => seq(a.index, _ => a.newState)
  }

  /** `changeOne` sets only position `index`: length and every other entry are kept. */
  lemma ChangeOneFrame(s: seq<EButtonState>, i: int, st: EButtonState)
    requires 0 <= i < |s|
    ensures |ButtonStatesAfter(s, BStateArrayAction(ChangeOne, i, st))| == |s|
    ensures ButtonStatesAfter(s, BStateArrayAction(ChangeOne, i, st))[i] == st
    ensures forall j :: 0 <= j < |s| && j != i ==> ButtonStatesAfter(s, BStateArrayAction(ChangeOne, i, st))[j] == s[j]
  {
  }

  /** After `activeOne` at most one entry differs from `unactive`, and it is `index`. */
  lemma ActiveOneAtMostOne(s: seq<EButtonState>, i: int, st: EButtonState)
    requires 0 <= i < |s|
    ensures var r := ButtonStatesAfter(s, BStateArrayAction(ActiveOne, i, st));
      |r| == |s| && r[i] == st && forall j :: 0 <= j < |r| && r[j] != Unactive ==> j == i
  {
  }

  /** Applying the same `activeOne` action twice gives the same array as once. */
  lemma ActiveOneIdempotent(s: seq<EButtonState>, i: int, st: EButtonState)
    requires 0 <= i < |s|
    ensures var a := BStateArrayAction(ActiveOne, i, st);
      ButtonStatesAfter(ButtonStatesAfter(s, a), a) == ButtonStatesAfter(s, a)
  {
  }

  /** `reset` gives `index` copies of `newState`, whatever the old state. */
  lemma ResetIgnoresState(s: seq<EButtonState>, t: seq<EButtonState>, n: nat, st: EButtonState)
    ensures var a := BStateArrayAction(ResetStates, n, st);
      ButtonStatesAfter(s, a) == ButtonStatesAfter(t, a) &&
      |ButtonStatesAfter(s, a)| == n && forall j :: 0 <= j < n ==> ButtonStatesAfter(s, a)[j] == st
  {
  }

  /** `bStateArrayReducer(state, a)`: `changeOne` and `activeOne` edit `state` in place and
      return a copy of it; `reset` returns a new filled array and leaves `state` alone. */
  method BStateArrayReducer(state: array<EButtonState>, a: BStateArrayAction) returns (r: seq<EButtonState>)
    requires a.action != ResetStates ==> 0 <= a.index < state.Length
    requires a.action == ResetStates ==> a.index >= 0
    modifies state
    ensures r == ButtonStatesAfter(old(state[..]), a)
    ensures a.action != ResetStates ==> state[..] == r
    ensures a.action == ResetStates ==> state[..] == old(state[..])
  {
    match a.action {
      case ChangeOne =>
        state[a.index] := a.newState;
        r := state[..];
      case ActiveOne =>
        var i := 0;
        while i < state.Length
          invariant 0 <= i <= state.Length
          invariant forall j :: 0 <= j < i ==> state[j] == Unactive
        {
          state[i] := Unactive;
          i := i + 1;
        }
        state[a.index] := a.newState;
        r := state[..];
      case ResetStates =>
        var filled := new EButtonState[a.index];
        var i := 0;
        while i < a.index
          invariant 0 <= i <= a.index
          invariant forall j :: 0 <= j < i ==> filled[j] == a.newState
          modifies filled
        {
          filled[i] := a.newState;
          i := i + 1;
        }
        r := filled[..];
    }
  }
}
