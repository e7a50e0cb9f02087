/** Geometry shared by the two bounding-box controllers: the padded square around a
    node, growing a box to cover another, and the strict hit test. */
module Boxes {
  import opened Wrappers

  /** The padding added on every side of a node. */
  const Padding: real := 15.0

  /** An axis-aligned box in canvas coordinates (y grows downwards). */
  datatype Rect = Rect(top: real, bottom: real, left: real, right: real)

  /** The fill, border and (in the newer controller) highlight colours of a box. */
  datatype BoxColor = BoxColor(color: string, border: string, highlight: Option<string>, name: string)

  /** A community's bounding box: its extent and the colour it was given. */
  datatype BoundingBox = BoundingBox(rect: Rect, color: BoxColor)

  /** `outer` covers `inner` (borders may touch). */
  predicate Contains(outer: Rect, inner: Rect)
  {
    outer.left <= inner.left && inner.right <= outer.right &&
    outer.top <= inner.top && inner.bottom <= outer.bottom
  }

  /** The box of a node: its square of side `size` centred on `(x, y)`, widened by the
      padding on every side. */
  function NodeRect(x: real, y: real, size: real): (r: Rect)
    ensures r.right - r.left == size + 2.0 * Padding && r.bottom - r.top == size + 2.0 * Padding
    ensures r.left + r.right == 2.0 * x && r.top + r.bottom == 2.0 * y
  {
    Rect(y - size / 2.0 - Padding, y + size / 2.0 + Padding, x - size / 2.0 - Padding, x + size / 2.0 + Padding)
  }

  /** `bb` moved out to cover `n`: each side moves only when `n` lies beyond it. */
  function Extend(bb: Rect, n: Rect): (r: Rect)
    ensures Contains(r, bb) && Contains(r, n)
  {
    Rect(if n.top < bb.top then n.top else bb.top,
         if n.bottom > bb.bottom then n.bottom else bb.bottom,
         if n.left < bb.left then n.left else bb.left,
         if n.right > bb.right then n.right else bb.right)
  }

  /** `Extend` is the smallest box covering both: any box that covers the two covers it. */
  lemma ExtendIsLeast(bb: Rect, n: Rect, c: Rect)
    requires Contains(c, bb) && Contains(c, n)
    ensures Contains(c, Extend(bb, n))
  {
  }

  /** `clickInsideBox`: strictly inside, so a point on the border is outside. */
  predicate ClickInsideBox(bb: Rect, x: real, y: real)
  {
    x > bb.left && x < bb.right && y > bb.top && y < bb.bottom
  }

  /** A point inside a box is inside every box that covers it; no point of the left or
      top border is inside. */
  lemma ClickInsideBoxFacts(inner: Rect, outer: Rect, x: real, y: real)
    ensures ClickInsideBox(inner, x, y) && Contains(outer, inner) ==> ClickInsideBox(outer, x, y)
    ensures !ClickInsideBox(inner, inner.left, y) && !ClickInsideBox(inner, x, inner.top)
    ensures !ClickInsideBox(inner, inner.right, y) && !ClickInsideBox(inner, x, inner.bottom)
  {
  }

  /** The message of the TypeError thrown when the hit test reaches a community without a
      box. */
  const NoBoxError: string := "Cannot read properties of undefined (reading 'left')"

  /** The message of the TypeError thrown when a node's community number does not index
      the community list, so that `comData[group].bb` reads a field of undefined. */
  const NoCommunityError: string := "Cannot read properties of undefined (reading 'bb')"
}
