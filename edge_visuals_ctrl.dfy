/** The newer edge controller: it keeps the network's edge data set, the base edges (every
    edge regardless of the threshold), the ids of the selected edges, whether unselected
    edges are hidden, and the current similarity threshold. */
module EdgeVisualsCtrl {
  import opened EdgeStore

  class EdgeVisualsCtrl {
    var edges: seq<Edge>
    const baseEdges: seq<Edge>
    var selected: seq<string>
    var hideUnselected: bool
    var edgeThreshold: real

    /** The data set and the base edges each hold distinct ids. */
    predicate Valid()
      reads this
    {
      UniqueIds(edges) && UniqueIds(baseEdges)
    }

    /** The constructor without its random initial pruning. */
    constructor (edges: seq<Edge>, baseEdges: seq<Edge>, hideEdges: bool, edgeThreshold: real)
      requires UniqueIds(edges) && UniqueIds(baseEdges)
      ensures Valid()
      ensures this.edges == edges && this.baseEdges == baseEdges && selected == []
      ensures hideUnselected == hideEdges && this.edgeThreshold == edgeThreshold
    {
      this.edges := edges;
      this.baseEdges := baseEdges;
      selected := [];
      hideUnselected := hideEdges;
      this.edgeThreshold := edgeThreshold;
    }

    /** `selectEdges(id)`: selects the edges incident to node `id` and returns their other
        endpoints; afterwards an edge is hidden exactly when unselected edges are hidden and
        it is not selected. */
    method SelectEdges(id: string) returns (selectedNodes: seq<string>)
      requires Valid()
      modifies this
      ensures Valid()
      ensures edges == Selected(old(edges), id, hideUnselected)
      ensures selected == Ids(Incidents(old(edges), id))
      ensures selectedNodes == OtherEnds(Incidents(old(edges), id), id)
      ensures VisibilityAgrees(edges, selected, hideUnselected)
      ensures hideUnselected == old(hideUnselected) && edgeThreshold == old(edgeThreshold)
    {
      var newEdges, newSelected;
      newEdges, newSelected, selectedNodes := SelectLoop(edges, id, hideUnselected);
      SelectFacts(edges, id, hideUnselected);
      edges, selected := newEdges, newSelected;
    }

    /** `unselectEdges()`: nothing stays selected and every edge is hidden exactly when
        unselected edges are hidden. */
    method UnselectEdges()
      requires Valid()
      modifies this
      ensures Valid()
      ensures selected == [] && edges == Unselected(old(edges), hideUnselected)
      ensures VisibilityAgrees(edges, selected, hideUnselected)
      ensures hideUnselected == old(hideUnselected) && edgeThreshold == old(edgeThreshold)
    {
      selected := [];
      var newEdges := UnselectLoop(edges, hideUnselected);
      UnselectFacts(edges, hideUnselected);
      edges := newEdges;
    }

    /** `toggleHideEdges(hideEdges)`: selected edges stay visible, the others are hidden
        exactly when the new flag is set. */
    method ToggleHideEdges(hideEdges: bool)
      requires Valid()
      modifies this
      ensures Valid()
      ensures hideUnselected == hideEdges && edges == Toggled(old(edges), selected, hideEdges)
      ensures VisibilityAgrees(edges, selected, hideUnselected)
      ensures selected == old(selected) && edgeThreshold == old(edgeThreshold)
    {
      hideUnselected := hideEdges;
      var newEdges := ToggleLoop(edges, selected, hideUnselected);
      ToggleFacts(edges, selected, hideUnselected);
      edges := newEdges;
    }

    /** `updateEdgesThreshold(t)` on the `similarity` of the edges. */
    method UpdateEdgesThreshold(newEdgeThreshold: real)
      requires Valid()
      modifies this
      ensures Valid()
      ensures edges == Thresholded(old(edges), baseEdges, old(edgeThreshold), newEdgeThreshold, Similarity)
      ensures edgeThreshold == newEdgeThreshold
      ensures selected == old(selected) && hideUnselected == old(hideUnselected)
    {
      ThresholdedFacts(edges, baseEdges, edgeThreshold, newEdgeThreshold, Similarity);
      if newEdgeThreshold > edgeThreshold {
        var edgesToDelete := BelowLoop(edges, newEdgeThreshold, Similarity);
        edges := RemoveIds(edges, edgesToDelete);
      } else {
        var containedEdges := Ids(edges);
        var edgeToAdd := ToAddLoop(baseEdges, containedEdges, newEdgeThreshold, Similarity);
        edges := edges + edgeToAdd;
      }
      edgeThreshold := newEdgeThreshold;
    }
  }
}
