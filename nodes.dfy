/** Node dimensions, node constants and the palettes indexed by explicit-community value. */
module Nodes {
  import opened Wrappers
  import opened JsOps

  /** The label offsets that go with a node shape. */
  datatype ShapeData = ShapeData(name: string, vAdjust: int, selectedVAdjust: int)

  /** The node dimensions an explicit community can drive. */
  datatype Dimensions = Color | Shape | Border

  /** An explicit-community key, its values, and the dimension it drives. */
  datatype DimAttribute = DimAttribute(key: string, values: seq<string>, dimension: Dimensions)

  const DefaultSize: int := 20
  const SelectedSize: int := 30
  const DefaultColor: string := "rgb(30, 236, 164, 1)"
  const NoFocusBackground: string := "rgba(155, 155, 155, 0.3)"
  const NoFocusBorder: string := "rgba(100, 100, 100, 0.3)"
  const DefaultShape: ShapeData := ShapeData("dot", -35, -40)
  const DefaultBorderWidth: int := 0
  const SelectedBorderWidth: int := 0
  const DefaultBorderColorWidth: int := 4
  const SelectedBorderColorWidth: int := 4

  const BackgroundColors: seq<string> := [
    "rgb(255, 0, 0, 1)", "rgb(0, 255, 72, 1)", "rgb(25, 166, 255, 1)", "rgb(255, 252, 25, 1)",
    "rgb(232, 134, 12, 1)", "rgb(123, 12, 232, 1)", "rgb(234, 10, 120, 1)", "rgb(30, 236, 164, 1)"]

  const BorderColors: seq<string> := [
    "rgb(128, 126, 13, 1)", "rgb(0, 128, 36, 1)", "rgb(13, 84, 128, 1)", "rgb(128, 0, 0, 1)",
    "rgb(62, 6, 116, 1)", "rgb(116, 67, 6, 1)", "rgb(117, 5, 60, 1)", "rgb(15, 118, 82, 1)"]

  const AvailableShapes: seq<ShapeData> := [
    ShapeData("dot", -35, -40), ShapeData("diamond", -35, -40), ShapeData("star", -34, -40),
    ShapeData("triangle", -29, -35), ShapeData("square", -35, -40), ShapeData("triangleDown", -40, -45),
    ShapeData("hexagon", -35, -40)]

  /** `palette[n % palette.length]`; a negative remainder indexes nothing (`undefined`),
      while a negative multiple of the length gives `-0`, which reads index 0. */
  function PaletteAt<T>(palette: seq<T>, n: int): (r: Option<T>)
    requires |palette| > 0
    ensures r.Some? <==> JsRem(n, |palette|) >= 0
    ensures n >= 0 ==> r.Some?
    ensures r.Some? ==> r.value in palette && r.value == palette[JsRem(n, |palette|)]
  {
    var i := JsRem(n, |palette|);
    if i >= 0 then Some(palette[i]) else None
  }

  /** The background colour for explicit-community value index `n`. */
  function GetColorOfN(n: int): (r: Option<string>)
    ensures n >= 0 ==> r == Some(BackgroundColors[JsRem(n, 8)])
    ensures r.Some? ==> r.value in BackgroundColors
  {
    PaletteAt(BackgroundColors, n)
  }

  /** The shape for explicit-community value index `n`. */
  function GetShapeOfN(n: int): (r: Option<ShapeData>)
    ensures n >= 0 ==> r == Some(AvailableShapes[JsRem(n, 7)])
    ensures r.Some? ==> r.value in AvailableShapes
  {
    PaletteAt(AvailableShapes, n)
  }

  /** The border colour for explicit-community value index `n`. */
  function GetBorderOfN(n: int): (r: Option<string>)
    ensures n >= 0 ==> r == Some(BorderColors[JsRem(n, 8)])
    ensures r.Some? ==> r.value in BorderColors
  {
    PaletteAt(BorderColors, n)
  }

  /** Every getter repeats with the length of its palette and is defined on every
      non-negative index. */
  lemma GettersPeriodic(n: int)
    requires n >= 0
    ensures GetColorOfN(n + 8) == GetColorOfN(n) && GetColorOfN(n).Some?
    ensures GetShapeOfN(n + 7) == GetShapeOfN(n) && GetShapeOfN(n).Some?
    ensures GetBorderOfN(n + 8) == GetBorderOfN(n) && GetBorderOfN(n).Some?
  {
    JsRemPeriodic(n, 8);
    JsRemPeriodic(n, 7);
  }

  /** A negative index that is not a multiple of the palette length yields `undefined`. */
  lemma NegativeIndexUndefined()
    ensures GetColorOfN(-1).None? && GetShapeOfN(-1).None? && GetBorderOfN(-1).None?
    ensures GetColorOfN(-8) == Some(BackgroundColors[0])
  {
    assert NatRem(8, 8) == 0;
  }

  /** The default shape is the first available shape. */
  lemma DefaultShapeIsFirst()
    ensures GetShapeOfN(0) == Some(DefaultShape)
  {
  }
}
