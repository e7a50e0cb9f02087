/** The colours, symbol and hover text of one portion of a stacked bar. The palette
    getters of `constants/nodes.ts` are parameters: that file is not part of this model. */
module BarPortion {
  import opened Wrappers
  import opened JsOps
  import opened Nodes

  /** `getBackgroundColor(dimensionIndex, dim, portionOrder)`: the palette colour for the
      Color dimension, white/black alternating for Shape, and red/blue/yellow cycling
      otherwise; a negative remainder matches no case and gives `undefined`. */
  function BackgroundColor(dimensionIndex: int, dim: Option<Dimensions>, portionOrder: int,
                           getColor: int -> string): (r: Option<string>)
    ensures dim == Some(Color) ==> r == Some(getColor(dimensionIndex))
    ensures r.None? <==> dim != Some(Color) && dim != Some(Shape) && JsRem(portionOrder, 3) < 0
  {
    if dim == Some(Color) then Some(getColor(dimensionIndex))
    else if dim == Some(Shape) then Some(if JsRem(portionOrder, 2) != 0 then "white" else "black")
    else
      var m := JsRem(portionOrder, 3);
      if m == 1 then Some("red") else if m == 2 then Some("blue") else if m == 0 then Some("yellow") else None
  }

  /** `getTextColor(dimensionIndex, dim, portionOrder)`. */
  function TextColor(dimensionIndex: int, dim: Option<Dimensions>, portionOrder: int): (r: string)
    ensures r == "white" || r == "black"
    ensures dim == Some(Color) ==> (r == "white" <==> dimensionIndex == 0)
    ensures dim != Some(Color) && dim != Some(Shape) ==> (r == "white" <==> JsRem(portionOrder, 3) == 1)
  {
    if dim == Some(Color) then (if dimensionIndex == 0 then "white" else "black")
    else if dim == Some(Shape) then (if JsRem(portionOrder, 2) != 0 then "black" else "white")
    else if JsRem(portionOrder, 3) == 1 then "white" else "black"
  }

  /** The shape figure drawn after the text: its shape name and colour. */
  datatype ShapeSymbol = ShapeSymbol(shape: string, color: string)

  /** `getSymbol(dimensionIndex, dim, portionOrder)`: a figure only for the Shape dimension. */
  function Symbol(dimensionIndex: int, dim: Option<Dimensions>, portionOrder: int,
                  getShape: int -> ShapeData): (r: Option<ShapeSymbol>)
    ensures r.Some? <==> dim == Some(Shape)
    ensures r.Some? ==> r.value.shape == getShape(dimensionIndex).name
  {
    if dim == Some(Shape) then Some(ShapeSymbol(getShape(dimensionIndex).name, TextColor(dimensionIndex, dim, portionOrder)))
    else None
  }

  /** The hover text: an empty label reads "(empty)", followed by the percentage. */
  function HoverText(hoverText: string, valueText: string): (r: string)
    ensures hoverText == "" ==> r == "(empty) " + valueText + "%"
    ensures hoverText != "" ==> |r| > |hoverText| && r[..|hoverText|] == hoverText
  {
    (if hoverText == "" then "(empty)" else hoverText) + " " + valueText + "%"
  }

  /** In the Shape dimension the text is always readable on its background: each is black
      or white and they differ; its symbol has the text colour. */
  lemma ShapeTextContrasts(dimensionIndex: int, portionOrder: int, getColor: int -> string, getShape: int -> ShapeData)
    ensures var bg := BackgroundColor(dimensionIndex, Some(Shape), portionOrder, getColor);
      var fg := TextColor(dimensionIndex, Some(Shape), portionOrder);
      bg.Some? && (bg.value == "white" || bg.value == "black") && fg != bg.value
    ensures Symbol(dimensionIndex, Some(Shape), portionOrder, getShape).value.color ==
      TextColor(dimensionIndex, Some(Shape), portionOrder)
  {
  }

  /** Outside Color and Shape, orders three apart get the same colours, and consecutive
      non-negative orders cycle red, blue, yellow. */
  lemma DefaultColorsCycle(dimensionIndex: int, dim: Option<Dimensions>, portionOrder: nat, getColor: int -> string)
    requires dim != Some(Color) && dim != Some(Shape)
    ensures BackgroundColor(dimensionIndex, dim, portionOrder + 3, getColor) == BackgroundColor(dimensionIndex, dim, portionOrder, getColor)
    ensures TextColor(dimensionIndex, dim, portionOrder + 3) == TextColor(dimensionIndex, dim, portionOrder)
    ensures BackgroundColor(dimensionIndex, dim, 3 * portionOrder + 1, getColor) == Some("red")
    ensures BackgroundColor(dimensionIndex, dim, 3 * portionOrder + 2, getColor) == Some("blue")
    ensures BackgroundColor(dimensionIndex, dim, 3 * portionOrder, getColor) == Some("yellow")
  {
    JsRemPeriodic(portionOrder, 3);
    RemOfMultiple(portionOrder, 1);
    RemOfMultiple(portionOrder, 2);
    RemOfMultiple(portionOrder, 0);
  }

  /** `(3 * n + k) % 3 == k` for `k < 3`. */
  lemma {:induction false} RemOfMultiple(n: nat, k: nat)
    requires k < 3
    ensures JsRem(3 * n + k, 3) == k
  {
    if n > 0 {
      RemOfMultiple(n - 1, k);
      JsRemPeriodic(3 * (n - 1) + k, 3);
    }
  }
}
