/** The oldest edge controller: it drops the weak edges once, keeps the hide-edges option
    and an optional list of selected edge ids, and hides unselected edges on request. Its
    constants (`namespaces/edges.ts`) give a narrowing limit of 0.5 and widths 1 and 10. */
module EdgeVisuals {
  import opened Wrappers
  import opened EdgeStore

  const NarrowLimit: real := 0.5
  /** The width limits of `namespaces/edges.ts`. */
  const LegacyMinWidth := 1
  const LegacyMaxWidth := 10

  /** There is a selection to protect: it is defined and non-empty. */
  predicate HasSelection(selectedEdges: Option<seq<string>>)
  {
    selectedEdges.Some? && |selectedEdges.value| > 0
  }

  /** An edge after `hideUnselectedEdges(hideEdges)`: with a selection, it is hidden exactly
      when edges are hidden and it is not selected; without, exactly when edges are hidden. */
  function AfterHide(e: Edge, selectedEdges: Option<seq<string>>, hideEdges: bool): Edge
  {
    if HasSelection(selectedEdges) then e.(hidden := Some(hideEdges && e.id !in selectedEdges.value))
    else e.(hidden := Some(hideEdges))
  }

  /** The data set after `hideUnselectedEdges(hideEdges)`. */
  function HiddenUnselected(edges: seq<Edge>, selectedEdges: Option<seq<string>>, hideEdges: bool): (r: seq<Edge>)
    ensures |r| == |edges| && forall i :: 0 <= i < |edges| ==> r[i].id == edges[i].id
  {
    seq(|edges|, i requires 0 <= i < |edges| => AfterHide(edges[i], selectedEdges, hideEdges))
  }

  /** Only the `hidden` flag changes: with a selection, the visibility rule of the selection
      holds; without one, every edge is hidden exactly when edges are hidden. */
  lemma HiddenUnselectedFacts(edges: seq<Edge>, selectedEdges: Option<seq<string>>, hideEdges: bool)
    ensures var r := HiddenUnselected(edges, selectedEdges, hideEdges);
      forall i :: 0 <= i < |edges| ==> r[i] == edges[i].(hidden := r[i].hidden)
    ensures HasSelection(selectedEdges) ==>
      VisibilityAgrees(HiddenUnselected(edges, selectedEdges, hideEdges), selectedEdges.value, hideEdges)
    ensures !HasSelection(selectedEdges) ==>
      VisibilityAgrees(HiddenUnselected(edges, selectedEdges, hideEdges), [], hideEdges)
  {
  }

  class EdgeVisuals {
    var edges: seq<Edge>
    var hideEdges: bool
    var selectedEdges: Option<seq<string>>
    /** The caller's edge options as the constructor leaves them. */
    const options: EdgeOptions

    /** The data set holds distinct ids. */
    predicate Valid()
      reads this
    {
      UniqueIds(edges)
    }

    /** The constructor: narrows the edges, applies the hide option with no selection, and
        adjusts the edge width in the given options. */
    constructor (hideEdges: bool, edgeWidth: bool, edges: seq<Edge>, options: EdgeOptions)
      requires UniqueIds(edges)
      ensures Valid() && this.hideEdges == hideEdges && selectedEdges.None?
      ensures this.edges == HiddenUnselected(RemoveIds(edges, BelowIds(edges, NarrowLimit, Value)), None, hideEdges)
      ensures this.options == WidthScaled(options, edgeWidth, LegacyMinWidth, LegacyMaxWidth)
    {
      var narrowed := NarrowEdges(edges);
      var hidden := HideLoop(narrowed, None, hideEdges);
      var scaled := ChangeEdgeWidth(edgeWidth, options);
      this.edges := hidden;
      this.hideEdges := hideEdges;
      selectedEdges := None;
      this.options := scaled;
    }

    /** `narrowEdges()`: removes exactly the edges whose defined value is below the limit. */
    static method NarrowEdges(edges: seq<Edge>) returns (r: seq<Edge>)
      requires UniqueIds(edges)
      ensures r == RemoveIds(edges, BelowIds(edges, NarrowLimit, Value))
      ensures UniqueIds(r) && forall e :: e in r <==> e in edges && !Below(e, NarrowLimit, Value)
    {
      var edgesToDelete := BelowLoop(edges, NarrowLimit, Value);
      RemovesExactlyBelow(edges, NarrowLimit, Value);
      r := RemoveIds(edges, edgesToDelete);
    }

    /** `changeEdgeWidth(edgeWidth, options)`: the options as it leaves them. */
    static method ChangeEdgeWidth(edgeWidth: bool, options: EdgeOptions) returns (r: EdgeOptions)
      ensures r == WidthScaled(options, edgeWidth, LegacyMinWidth, LegacyMaxWidth)
      ensures r.scaling.Some? && r.scaling.value.max.Some? ==> r.scaling.value.max.value in {LegacyMinWidth, LegacyMaxWidth}
    {
      r := options;
      if options.scaling.Some? && options.scaling.value.max.Some? {
        if edgeWidth {
          r := options.(scaling := Some(options.scaling.value.(max := Some(LegacyMaxWidth))));
        } else {
          r := options.(scaling := Some(options.scaling.value.(max := Some(LegacyMinWidth))));
        }
      }
    }

    /** The two `forEach` loops of `hideUnselectedEdges`. */
    static method HideLoop(edges: seq<Edge>, selectedEdges: Option<seq<string>>, hideEdges: bool)
      returns (newEdges: seq<Edge>)
      ensures newEdges == HiddenUnselected(edges, selectedEdges, hideEdges)
    {
      newEdges := [];
      if selectedEdges.Some? && |selectedEdges.value| > 0 {
        for k := 0 to |edges|
          invariant |newEdges| == k && forall i :: 0 <= i < k ==> newEdges[i] == AfterHide(edges[i], selectedEdges, hideEdges)
        {
          var edge := edges[k];
          if hideEdges && edge.id !in selectedEdges.value {
            edge := edge.(hidden := Some(true));
          } else {
            edge := edge.(hidden := Some(false));
          }
          newEdges := newEdges + [edge];
        }
      } else {
        for k := 0 to |edges|
          invariant |newEdges| == k && forall i :: 0 <= i < k ==> newEdges[i] == AfterHide(edges[i], selectedEdges, hideEdges)
        {
          var edge := edges[k];
          if hideEdges {
            edge := edge.(hidden := Some(true));
          } else {
            edge := edge.(hidden := Some(false));
          }
          newEdges := newEdges + [edge];
        }
      }
    }

    /** `hideUnselectedEdges(hideEdges)`. */
    method HideUnselectedEdges(hideEdges: bool)
      requires Valid()
      modifies this
      ensures Valid() && this.hideEdges == hideEdges && selectedEdges == old(selectedEdges)
      ensures edges == HiddenUnselected(old(edges), selectedEdges, hideEdges)
    {
      this.hideEdges := hideEdges;
      var newEdges := HideLoop(edges, selectedEdges, hideEdges);
      edges := newEdges;
    }

    /** `selectEdges(selected)`: stores the selection and recomputes visibility only when
        edges are hidden. */
    method SelectEdges(selected: seq<string>)
      requires Valid()
      modifies this
      ensures Valid() && selectedEdges == Some(selected) && hideEdges == old(hideEdges)
      ensures edges == if hideEdges then HiddenUnselected(old(edges), selectedEdges, true) else old(edges)
    {
      selectedEdges := Some(selected);
      if hideEdges {
        HideUnselectedEdges(hideEdges);
      }
    }

    /** `unselectEdges()`: clears the selection and recomputes visibility only when edges
        are hidden, which then hides every edge. */
    method UnselectEdges()
      requires Valid()
      modifies this
      ensures Valid() && selectedEdges.None? && hideEdges == old(hideEdges)
      ensures edges == if hideEdges then HiddenUnselected(old(edges), None, true) else old(edges)
      ensures hideEdges ==> forall i :: 0 <= i < |edges| ==> edges[i].hidden == Some(true)
    {
      selectedEdges := None;
      if hideEdges {
        HideUnselectedEdges(hideEdges);
      }
    }
  }
}
