/** The older edge controller: it keeps the network's edge data set, the base edges (every
    edge regardless of the threshold), the ids of the focused edges, whether unselected
    edges are hidden, and the current threshold on the edge values. */
module EdgeVisualCtrl {
  import opened Wrappers
  import opened EdgeStore

  class EdgeVisualsCtrl {
    var edges: seq<Edge>
    const baseEdges: seq<Edge>
    var focusedEdges: seq<string>
    var hideUnselected: bool
    var edgeThreshold: real

    /** The data set and the base edges each hold distinct ids. */
    predicate Valid()
      reads this
    {
      UniqueIds(edges) && UniqueIds(baseEdges)
    }

    /** The constructor without its random initial pruning. */
    constructor (edges: seq<Edge>, baseEdges: seq<Edge>, hideEdges: bool, edgeThreshold: real)
      requires UniqueIds(edges) && UniqueIds(baseEdges)
      ensures Valid()
      ensures this.edges == edges && this.baseEdges == baseEdges && focusedEdges == []
      ensures hideUnselected == hideEdges && this.edgeThreshold == edgeThreshold
    {
      this.edges := edges;
      this.baseEdges := baseEdges;
      focusedEdges := [];
      hideUnselected := hideEdges;
      this.edgeThreshold := edgeThreshold;
    }

    /** `selectEdges(id)`: focuses the edges incident to node `id` and returns their other
        endpoints; afterwards an edge is hidden exactly when unselected edges are hidden and
        it is not focused. */
    method SelectEdges(id: string) returns (selectedNodes: seq<string>)
      requires Valid()
      modifies this
      ensures Valid()
      ensures edges == Selected(old(edges), id, hideUnselected)
      ensures focusedEdges == Ids(Incidents(old(edges), id))
      ensures selectedNodes == OtherEnds(Incidents(old(edges), id), id)
      ensures VisibilityAgrees(edges, focusedEdges, hideUnselected)
      ensures hideUnselected == old(hideUnselected) && edgeThreshold == old(edgeThreshold)
    {
      var newEdges, newSelected;
      newEdges, newSelected, selectedNodes := SelectLoop(edges, id, hideUnselected);
      SelectFacts(edges, id, hideUnselected);
      edges, focusedEdges := newEdges, newSelected;
    }

    /** `unselectEdges()`: nothing stays focused and every edge is hidden exactly when
        unselected edges are hidden. */
    method UnselectEdges()
      requires Valid()
      modifies this
      ensures Valid()
      ensures focusedEdges == [] && edges == Unselected(old(edges), hideUnselected)
      ensures VisibilityAgrees(edges, focusedEdges, hideUnselected)
      ensures hideUnselected == old(hideUnselected) && edgeThreshold == old(edgeThreshold)
    {
      focusedEdges := [];
      var newEdges := UnselectLoop(edges, hideUnselected);
      UnselectFacts(edges, hideUnselected);
      edges := newEdges;
    }

    /** `toggleHideEdges(hideEdges)`: focused edges stay visible, the others are hidden
        exactly when the new flag is set. */
    method ToggleHideEdges(hideEdges: bool)
      requires Valid()
      modifies this
      ensures Valid()
      ensures hideUnselected == hideEdges && edges == Toggled(old(edges), focusedEdges, hideEdges)
      ensures VisibilityAgrees(edges, focusedEdges, hideUnselected)
      ensures focusedEdges == old(focusedEdges) && edgeThreshold == old(edgeThreshold)
    {
      hideUnselected := hideEdges;
      var newEdges := ToggleLoop(edges, focusedEdges, hideUnselected);
      ToggleFacts(edges, focusedEdges, hideUnselected);
      edges := newEdges;
    }

    /** `toggleEdgeWidth(edgeWidth, net, options)`: the options as it leaves them, before
        they are handed to the network; the data set is unchanged. */
    method ToggleEdgeWidth(edgeWidth: bool, options: EdgeOptions) returns (r: EdgeOptions)
      ensures r == WidthScaled(options, edgeWidth, MinWidth, MaxWidth)
      ensures r.scaling.Some? && r.scaling.value.max.Some? ==> r.scaling.value.max.value in {MinWidth, MaxWidth}
    {
      r := options;
      if options.scaling.Some? && options.scaling.value.max.Some? {
        if edgeWidth {
          r := options.(scaling := Some(options.scaling.value.(max := Some(MaxWidth))));
        } else {
          r := options.(scaling := Some(options.scaling.value.(max := Some(MinWidth))));
        }
      }
    }

    /** `updateEdgesThreshold(t)` on the `value` of the edges. */
    method UpdateEdgesThreshold(newEdgeThreshold: real)
      requires Valid()
      modifies this
      ensures Valid()
      ensures edges == Thresholded(old(edges), baseEdges, old(edgeThreshold), newEdgeThreshold, Value)
      ensures edgeThreshold == newEdgeThreshold
      ensures focusedEdges == old(focusedEdges) && hideUnselected == old(hideUnselected)
    {
      ThresholdedFacts(edges, baseEdges, edgeThreshold, newEdgeThreshold, Value);
      if newEdgeThreshold > edgeThreshold {
        var edgesToDelete := BelowLoop(edges, newEdgeThreshold, Value);
        edges := RemoveIds(edges, edgesToDelete);
      } else {
        var containedEdges := Ids(edges);
        var edgeToAdd := ToAddLoop(baseEdges, containedEdges, newEdgeThreshold, Value);
        edges := edges + edgeToAdd;
      }
      edgeThreshold := newEdgeThreshold;
    }
  }
}
