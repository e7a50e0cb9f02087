/** The edge data set of a network and the rules the edge controllers apply to it: a
    vis.js `DataSet` of edges is modelled as the sequence of its edges in insertion order,
    whose ids are distinct. Edge visuals follow `constants/edges.ts`, whose labels are
    switched off, so only the colour and the `hidden` flag of an edge change. */
module EdgeStore {
  import opened Wrappers

  /** An edge: its endpoints, its weight (`similarity` in the newer data format, `value` in
      the older one), and the visual fields the controllers write (`None` while unset). */
  datatype Edge = Edge(id: string, from: string, to: string,
                       similarity: Option<real>, value: Option<real>,
                       hidden: Option<bool>, color: Option<string>)

  const SelectedColor := "#000000"
  const UnselectedColor := "rgba(164,164,164, 0.2)"
  const MinWidth := 1
  const MaxWidth := 10

  /** Which field holds an edge's weight. */
  datatype WeightField = Similarity | Value

  function Weight(e: Edge, f: WeightField): Option<real>
  {
    match f
    case Similarity => e.similarity
    case Value => e.value
  }

  /** The weight is defined and below the threshold (`undefined < t` is false). */
  predicate Below(e: Edge, t: real, f: WeightField)
  {
    Weight(e, f).Some? && Weight(e, f).value < t
  }

  /** `dataSet.getIds()`. */
  function Ids(edges: seq<Edge>): (r: seq<string>)
    ensures |r| == |edges|
    ensures forall i :: 0 <= i < |edges| ==> r[i] == edges[i].id
  {
    seq(|edges|, i requires 0 <= i < |edges| => edges[i].id)
  }

  /** No two edges share an id, as in every data set. */
  predicate UniqueIds(edges: seq<Edge>)
  {
    forall i, j :: 0 <= i < j < |edges| ==> edges[i].id != edges[j].id
  }

  // ---------------------------------------------------------------- removal by threshold

  /** `dataSet.remove(ids)`: the edges whose id is listed leave, the others keep their order. */
  function RemoveIds(edges: seq<Edge>, ids: seq<string>): (r: seq<Edge>)
    ensures |r| <= |edges|
    ensures forall e :: e in r <==> e in edges && e.id !in ids
  {
    if edges == [] then []
    else
      var rest := RemoveIds(edges[1..], ids);
      assert forall e :: e in edges <==> e == edges[0] || e in edges[1..];
      if edges[0].id in ids then rest else [edges[0]] + rest
  }

  /** Removing edges keeps the remaining ids distinct. */
  lemma {:induction false} RemoveIdsKeepsUnique(edges: seq<Edge>, ids: seq<string>)
    requires UniqueIds(edges)
    ensures UniqueIds(RemoveIds(edges, ids))
  {
    if edges != [] {
      RemoveIdsKeepsUnique(edges[1..], ids);
      var rest := RemoveIds(edges[1..], ids);
      assert forall e :: e in rest ==> e in edges[1..];
      assert forall e :: e in edges[1..] ==> e.id != edges[0].id;
      if edges[0].id !in ids {
        var r := [edges[0]] + rest;
        forall i, j | 0 <= i < j < |r|
          ensures r[i].id != r[j].id
        {
          if i == 0 {
            assert r[j] == rest[j - 1] && r[j] in rest;
          } else {
            assert r[i] == rest[i - 1] && r[j] == rest[j - 1];
          }
        }
      }
    }
  }

  /** The ids the threshold and narrowing loops collect: those of the edges below `t`, in
      data set order. */
  function BelowIds(edges: seq<Edge>, t: real, f: WeightField): (r: seq<string>)
    ensures |r| <= |edges|
  {
    if edges == [] then []
    else
      var n := |edges| - 1;
      BelowIds(edges[..n], t, f) + (if Below(edges[n], t, f) then [edges[n].id] else [])
  }

  /** An id is collected exactly when an edge with that id is below `t`. */
  lemma {:induction false} BelowIdsMembers(edges: seq<Edge>, t: real, f: WeightField, x: string)
    ensures x in BelowIds(edges, t, f) <==> exists i :: 0 <= i < |edges| && edges[i].id == x && Below(edges[i], t, f)
  {
    if edges != [] {
      var n := |edges| - 1;
      BelowIdsMembers(edges[..n], t, f, x);
      assert forall i :: 0 <= i < n ==> edges[..n][i] == edges[i];
    }
  }

  /** Removing the collected ids removes exactly the edges below `t`, and the data set keeps
      distinct ids. */
  lemma RemovesExactlyBelow(edges: seq<Edge>, t: real, f: WeightField)
    requires UniqueIds(edges)
    ensures forall e :: e in RemoveIds(edges, BelowIds(edges, t, f)) <==> e in edges && !Below(e, t, f)
    ensures UniqueIds(RemoveIds(edges, BelowIds(edges, t, f)))
  {
    RemoveIdsKeepsUnique(edges, BelowIds(edges, t, f));
    forall e | e in edges
      ensures e.id in BelowIds(edges, t, f) <==> Below(e, t, f)
    {
      BelowIdsMembers(edges, t, f, e.id);
      var i :| 0 <= i < |edges| && edges[i] == e;
    }
  }

  // ---------------------------------------------------------------- re-adding below a lower threshold

  /** The base edges the lowering loop adds: edges below `t` are skipped, the walk stops at
      the first other edge already present, and the rest are collected in base order. */
  function ToAdd(base: seq<Edge>, contained: seq<string>, t: real, f: WeightField): seq<Edge>
  {
    if base == [] then []
    else if Below(base[0], t, f) then ToAdd(base[1..], contained, t, f)
    else if base[0].id in contained then []
    else [base[0]] + ToAdd(base[1..], contained, t, f)
  }

  /** A base edge is added exactly when it is not below `t`, not present, and every base edge
      before it that is not below `t` is not present either. */
  lemma {:induction false} ToAddMembers(base: seq<Edge>, contained: seq<string>, t: real, f: WeightField, e: Edge)
    ensures e in ToAdd(base, contained, t, f) <==> exists k :: (0 <= k < |base| && base[k] == e &&
      !Below(e, t, f) && e.id !in contained &&
      forall j :: 0 <= j < k ==> Below(base[j], t, f) || base[j].id !in contained)
  {
    if base != [] {
      ToAddMembers(base[1..], contained, t, f, e);
      var tail := base[1..];
      assert forall j :: 0 <= j < |tail| ==> tail[j] == base[j + 1];
      if e in ToAdd(base, contained, t, f) && e != base[0] {
        var k :| 0 <= k < |tail| && tail[k] == e && !Below(e, t, f) && e.id !in contained &&
          forall j :: 0 <= j < k ==> Below(tail[j], t, f) || tail[j].id !in contained;
        assert base[k + 1] == e;
      }
      if exists k :: (0 <= k < |base| && base[k] == e && !Below(e, t, f) && e.id !in contained &&
                     forall j :: 0 <= j < k ==> Below(base[j], t, f) || base[j].id !in contained) {
        var k :| 0 <= k < |base| && base[k] == e && !Below(e, t, f) && e.id !in contained &&
          forall j :: 0 <= j < k ==> Below(base[j], t, f) || base[j].id !in contained;
        if k > 0 {
          assert tail[k - 1] == e;
          assert forall j :: 0 <= j < k - 1 ==> Below(tail[j], t, f) || tail[j].id !in contained by {
            assert forall j :: 0 <= j < k - 1 ==> tail[j] == base[j + 1];
          }
        }
      }
    }
  }

  /** The added edges come from the base in base order, so with distinct base ids they have
      distinct ids too. */
  lemma {:induction false} ToAddKeepsUnique(base: seq<Edge>, contained: seq<string>, t: real, f: WeightField)
    requires UniqueIds(base)
    ensures UniqueIds(ToAdd(base, contained, t, f))
    ensures forall e :: e in ToAdd(base, contained, t, f) ==> e in base
  {
    if base != [] {
      var tail := base[1..];
      assert UniqueIds(tail) by {
        assert forall j :: 0 <= j < |tail| ==> tail[j] == base[j + 1];
      }
      ToAddKeepsUnique(tail, contained, t, f);
      var rest := ToAdd(tail, contained, t, f);
      assert forall e :: e in tail ==> e.id != base[0].id;
      if !Below(base[0], t, f) && base[0].id !in contained {
        var r := [base[0]] + rest;
        forall i, j | 0 <= i < j < |r|
          ensures r[i].id != r[j].id
        {
          if i == 0 {
            assert r[j] == rest[j - 1] && r[j] in rest;
          } else {
            assert r[i] == rest[i - 1] && r[j] == rest[j - 1];
          }
        }
      }
    }
  }

  /** Lowering the threshold appends only edges that were absent, so the data set keeps
      distinct ids. */
  lemma LoweringKeepsUnique(edges: seq<Edge>, base: seq<Edge>, t: real, f: WeightField)
    requires UniqueIds(edges) && UniqueIds(base)
    ensures UniqueIds(edges + ToAdd(base, Ids(edges), t, f))
  {
    var added := ToAdd(base, Ids(edges), t, f);
    ToAddKeepsUnique(base, Ids(edges), t, f);
    forall e | e in added
      ensures e.id !in Ids(edges)
    {
      ToAddMembers(base, Ids(edges), t, f, e);
    }
    var r := edges + added;
    forall i, j | 0 <= i < j < |r|
      ensures r[i].id != r[j].id
    {
      if j >= |edges| {
        assert r[j] == added[j - |edges|] && r[j] in added;
        if i < |edges| {
          assert Ids(edges)[i] == r[i].id;
        } else {
          assert r[i] == added[i - |edges|];
        }
      }
    }
  }

  // ---------------------------------------------------------------- selection

  /** The edge starts or ends at node `id`. */
  predicate Incident(e: Edge, id: string)
  {
    e.from == id || e.to == id
  }

  /** The endpoint `selectEdges` reports for an incident edge: `from` is checked first, so a
      self-loop reports its `to`. */
  function OtherEnd(e: Edge, id: string): string
  {
    if e.from == id then e.to else e.from
  }

  /** The edges incident to `id`, in data set order. */
  function Incidents(edges: seq<Edge>, id: string): (r: seq<Edge>)
    ensures |r| <= |edges|
    ensures forall e :: e in r <==> e in edges && Incident(e, id)
  {
    if edges == [] then []
    else
      var n := |edges| - 1;
      assert forall e :: e in edges <==> e in edges[..n] || e == edges[n];
      Incidents(edges[..n], id) + (if Incident(edges[n], id) then [edges[n]] else [])
  }

  /** The nodes `selectEdges` returns: the other endpoint of each incident edge. */
  function OtherEnds(incidents: seq<Edge>, id: string): (r: seq<string>)
    ensures |r| == |incidents|
    ensures forall k :: 0 <= k < |incidents| ==> r[k] == OtherEnd(incidents[k], id)
  {
    seq(|incidents|, k requires 0 <= k < |incidents| => OtherEnd(incidents[k], id))
  }

  /** An edge after `selectEdges(id)`: incident edges are shown in the selected colour,
      others are hidden when unselected edges are hidden, else shown in the default colour. */
  function AfterSelect(e: Edge, id: string, hideUnselected: bool): Edge
  {
    if Incident(e, id) then e.(color := Some(SelectedColor), hidden := Some(false))
    else if hideUnselected then e.(hidden := Some(true))
    else e.(hidden := Some(false), color := Some(UnselectedColor))
  }

  /** An edge after `unselectEdges()`. */
  function AfterUnselect(e: Edge, hideUnselected: bool): Edge
  {
    if hideUnselected then e.(hidden := Some(true))
    else e.(hidden := Some(false), color := Some(UnselectedColor))
  }

  /** An edge after `toggleHideEdges(hideEdges)` with the current selection. */
  function AfterToggle(e: Edge, selected: seq<string>, hideEdges: bool): Edge
  {
    if hideEdges then e.(hidden := Some(e.id !in selected))
    else if e.id in selected then e.(hidden := Some(false))
    else e.(hidden := Some(false), color := Some(UnselectedColor))
  }

  /** The data set after `selectEdges(id)`: every edge rewritten in place, same order. */
  function Selected(edges: seq<Edge>, id: string, hideUnselected: bool): (r: seq<Edge>)
    ensures |r| == |edges| && forall i :: 0 <= i < |edges| ==> r[i].id == edges[i].id
  {
    seq(|edges|, i requires 0 <= i < |edges| => AfterSelect(edges[i], id, hideUnselected))
  }

  /** The data set after `unselectEdges()`. */
  function Unselected(edges: seq<Edge>, hideUnselected: bool): (r: seq<Edge>)
    ensures |r| == |edges| && forall i :: 0 <= i < |edges| ==> r[i].id == edges[i].id
  {
    seq(|edges|, i requires 0 <= i < |edges| => AfterUnselect(edges[i], hideUnselected))
  }

  /** The data set after `toggleHideEdges(hideEdges)`. */
  function Toggled(edges: seq<Edge>, selected: seq<string>, hideEdges: bool): (r: seq<Edge>)
    ensures |r| == |edges| && forall i :: 0 <= i < |edges| ==> r[i].id == edges[i].id
  {
    seq(|edges|, i requires 0 <= i < |edges| => AfterToggle(edges[i], selected, hideEdges))
  }

  /** The data set after `updateEdgesThreshold(t)` from threshold `current`: a higher
      threshold removes the edges below it, any other appends the base edges `ToAdd` picks. */
  function Thresholded(edges: seq<Edge>, base: seq<Edge>, current: real, t: real, f: WeightField): seq<Edge>
  {
    if t > current then RemoveIds(edges, BelowIds(edges, t, f))
    else edges + ToAdd(base, Ids(edges), t, f)
  }

  /** With distinct ids in the data set and the base, a threshold change keeps the ids
      distinct; a raise keeps exactly the edges not below `t`; a lowering keeps every edge
      and adds only base edges not below `t` that were absent (which ones: `ToAddMembers`). */
  lemma ThresholdedFacts(edges: seq<Edge>, base: seq<Edge>, current: real, t: real, f: WeightField)
    requires UniqueIds(edges) && UniqueIds(base)
    ensures UniqueIds(Thresholded(edges, base, current, t, f))
    ensures t > current ==> forall e :: e in Thresholded(edges, base, current, t, f) <==> e in edges && !Below(e, t, f)
    ensures !(t > current) ==> forall e :: e in Thresholded(edges, base, current, t, f) ==>
      e in edges || (e in base && !Below(e, t, f) && e.id !in Ids(edges))
    ensures !(t > current) ==> Thresholded(edges, base, current, t, f)[..|edges|] == edges
  {
    if t > current {
      RemovesExactlyBelow(edges, t, f);
    } else {
      LoweringKeepsUnique(edges, base, t, f);
      ToAddKeepsUnique(base, Ids(edges), t, f);
      forall e | e in ToAdd(base, Ids(edges), t, f)
        ensures !Below(e, t, f) && e.id !in Ids(edges)
      {
        ToAddMembers(base, Ids(edges), t, f, e);
      }
    }
  }

  /** The visibility rule the selection operations establish: an edge is hidden exactly
      when unselected edges are hidden and it is not selected. */
  predicate VisibilityAgrees(edges: seq<Edge>, selected: seq<string>, hideUnselected: bool)
  {
    forall i :: 0 <= i < |edges| ==> edges[i].hidden == Some(hideUnselected && edges[i].id !in selected)
  }

  /** After `selectEdges(id)` the selected ids are those of the incident edges; with
      distinct ids the visibility rule holds, incident edges are in the selected colour, and
      every returned node is a neighbour of `id`. */
  lemma SelectFacts(edges: seq<Edge>, id: string, hideUnselected: bool)
    requires UniqueIds(edges)
    ensures var r := Selected(edges, id, hideUnselected);
      VisibilityAgrees(r, Ids(Incidents(edges, id)), hideUnselected) &&
      forall i :: 0 <= i < |edges| && Incident(edges[i], id) ==> r[i].color == Some(SelectedColor)
    ensures forall x :: x in OtherEnds(Incidents(edges, id), id) ==>
      exists e :: e in edges && ((e.from == id && e.to == x) || (e.to == id && e.from == x))
  {
    var inc := Incidents(edges, id);
    forall i | 0 <= i < |edges|
      ensures edges[i].id in Ids(inc) <==> Incident(edges[i], id)
    {
      if edges[i].id in Ids(inc) {
        var k :| 0 <= k < |inc| && Ids(inc)[k] == edges[i].id;
        assert inc[k] in edges;
        var j :| 0 <= j < |edges| && edges[j] == inc[k];
        assert i == j;
      }
      if Incident(edges[i], id) {
        assert edges[i] in inc;
        var k :| 0 <= k < |inc| && inc[k] == edges[i];
        assert Ids(inc)[k] == edges[i].id;
      }
    }
    forall x | x in OtherEnds(inc, id)
      ensures exists e :: e in edges && ((e.from == id && e.to == x) || (e.to == id && e.from == x))
    {
      var k :| 0 <= k < |inc| && OtherEnds(inc, id)[k] == x;
      assert inc[k] in edges;
    }
  }

  /** After `unselectEdges()` nothing is selected and every edge is hidden exactly when
      unselected edges are hidden. */
  lemma UnselectFacts(edges: seq<Edge>, hideUnselected: bool)
    ensures VisibilityAgrees(Unselected(edges, hideUnselected), [], hideUnselected)
    ensures !hideUnselected ==> forall i :: 0 <= i < |edges| ==> Unselected(edges, hideUnselected)[i].color == Some(UnselectedColor)
  {
  }

  /** After `toggleHideEdges(hideEdges)` selected edges are visible and the others are
      hidden exactly when the new flag is set; selected edges keep their colour. */
  lemma ToggleFacts(edges: seq<Edge>, selected: seq<string>, hideEdges: bool)
    ensures var r := Toggled(edges, selected, hideEdges);
      VisibilityAgrees(r, selected, hideEdges) &&
      forall i :: 0 <= i < |edges| && edges[i].id in selected ==> r[i].color == edges[i].color
  {
  }

  // ---------------------------------------------------------------- the controllers' loops

  /** The `forEach` of `selectEdges(id)`: rewrites each edge and collects the selected ids
      and the reported nodes. */
  method SelectLoop(edges: seq<Edge>, id: string, hideUnselected: bool)
    returns (newEdges: seq<Edge>, selected: seq<string>, selectedNodes: seq<string>)
    ensures newEdges == Selected(edges, id, hideUnselected)
    ensures selected == Ids(Incidents(edges, id))
    ensures selectedNodes == OtherEnds(Incidents(edges, id), id)
  {
    newEdges, selected, selectedNodes := [], [], [];
    for k := 0 to |edges|
      invariant |newEdges| == k && forall i :: 0 <= i < k ==> newEdges[i] == AfterSelect(edges[i], id, hideUnselected)
      invariant selected == Ids(Incidents(edges[..k], id))
      invariant selectedNodes == OtherEnds(Incidents(edges[..k], id), id)
    {
      IncidentsStep(edges, k, id);
      var edge := edges[k];
      if edge.from == id {
        selectedNodes := selectedNodes + [edge.to];
        selected := selected + [edge.id];
      } else if edge.to == id {
        selectedNodes := selectedNodes + [edge.from];
        selected := selected + [edge.id];
      }
      var selectedEdge := SelectEdge(edge, id, hideUnselected);
      newEdges := newEdges + [selectedEdge];
    }
    assert edges[..|edges|] == edges;
  }

  /** One edge of the `selectEdges` loop: the selected look for an incident edge, else
      hidden or the unselected look. */
  method SelectEdge(edge: Edge, id: string, hideUnselected: bool) returns (r: Edge)
    ensures r == AfterSelect(edge, id, hideUnselected)
  {
    if edge.from == id || edge.to == id {
      r := edge.(color := Some(SelectedColor), hidden := Some(false));
    } else if hideUnselected {
      r := edge.(hidden := Some(true));
    } else {
      r := edge.(hidden := Some(false), color := Some(UnselectedColor));
    }
  }

  /** One more edge extends the selected ids and the reported nodes by its own entry when
      it is incident. */
  lemma IncidentsStep(edges: seq<Edge>, k: nat, id: string)
    requires k < |edges|
    ensures Ids(Incidents(edges[..k + 1], id)) ==
      Ids(Incidents(edges[..k], id)) + (if Incident(edges[k], id) then [edges[k].id] else [])
    ensures OtherEnds(Incidents(edges[..k + 1], id), id) ==
      OtherEnds(Incidents(edges[..k], id), id) + (if Incident(edges[k], id) then [OtherEnd(edges[k], id)] else [])
  {
    assert edges[..k + 1][..k] == edges[..k];
    var before := Incidents(edges[..k], id);
    if Incident(edges[k], id) {
      assert Incidents(edges[..k + 1], id) == before + [edges[k]];
      assert Ids(before + [edges[k]]) == Ids(before) + [edges[k].id];
      assert OtherEnds(before + [edges[k]], id) == OtherEnds(before, id) + [OtherEnd(edges[k], id)];
    }
  }

  /** The `forEach` of `unselectEdges()`. */
  method UnselectLoop(edges: seq<Edge>, hideUnselected: bool) returns (newEdges: seq<Edge>)
    ensures newEdges == Unselected(edges, hideUnselected)
  {
    newEdges := [];
    for k := 0 to |edges|
      invariant |newEdges| == k && forall i :: 0 <= i < k ==> newEdges[i] == AfterUnselect(edges[i], hideUnselected)
    {
      var edge := edges[k];
      if hideUnselected {
        edge := edge.(hidden := Some(true));
      } else {
        edge := edge.(hidden := Some(false), color := Some(UnselectedColor));
      }
      newEdges := newEdges + [edge];
    }
  }

  /** The `forEach` of `toggleHideEdges(hideEdges)` with the current selection. */
  method ToggleLoop(edges: seq<Edge>, selected: seq<string>, hideEdges: bool) returns (newEdges: seq<Edge>)
    ensures newEdges == Toggled(edges, selected, hideEdges)
  {
    newEdges := [];
    for k := 0 to |edges|
      invariant |newEdges| == k && forall i :: 0 <= i < k ==> newEdges[i] == AfterToggle(edges[i], selected, hideEdges)
    {
      var edge := edges[k];
      if hideEdges {
        if edge.id in selected {
          edge := edge.(hidden := Some(false));
        } else {
          edge := edge.(hidden := Some(true));
        }
      } else {
        edge := edge.(hidden := Some(false));
        if edge.id !in selected {
          edge := edge.(color := Some(UnselectedColor));
        }
      }
      newEdges := newEdges + [edge];
    }
  }

  /** The `forEach` collecting the ids of the edges whose defined weight is below `t`. */
  method BelowLoop(edges: seq<Edge>, t: real, f: WeightField) returns (edgesToDelete: seq<string>)
    ensures edgesToDelete == BelowIds(edges, t, f)
  {
    edgesToDelete := [];
    for k := 0 to |edges|
      invariant edgesToDelete == BelowIds(edges[..k], t, f)
    {
      assert edges[..k + 1][..k] == edges[..k];
      var w := Weight(edges[k], f);
      if w.Some? && w.value < t {
        edgesToDelete := edgesToDelete + [edges[k].id];
      }
    }
    assert edges[..|edges|] == edges;
  }

  /** The `for ... of` over the base edges that collects the edges to add back: it skips
      edges below `t` and stops at the first other edge already present. */
  method ToAddLoop(base: seq<Edge>, contained: seq<string>, t: real, f: WeightField) returns (edgeToAdd: seq<Edge>)
    ensures edgeToAdd == ToAdd(base, contained, t, f)
  {
    edgeToAdd := [];
    var k := 0;
    while k < |base|
      invariant 0 <= k <= |base|
      invariant edgeToAdd + ToAdd(base[k..], contained, t, f) == ToAdd(base, contained, t, f)
    {
      var edge := base[k];
      ToAddStep(base, k, contained, t, f);
      var w := Weight(edge, f);
      if w.Some? && w.value < t {
        k := k + 1;
        continue;
      }
      if edge.id in contained {
        break;
      }
      edgeToAdd := edgeToAdd + [edge];
      k := k + 1;
    }
  }

  /** `ToAdd` from position `k`, unfolded once. */
  lemma ToAddStep(base: seq<Edge>, k: nat, contained: seq<string>, t: real, f: WeightField)
    requires k < |base|
    ensures ToAdd(base[k..], contained, t, f) ==
      if Below(base[k], t, f) then ToAdd(base[k + 1..], contained, t, f)
      else if base[k].id in contained then []
      else [base[k]] + ToAdd(base[k + 1..], contained, t, f)
  {
    assert base[k..][1..] == base[k + 1..];
  }

  // ---------------------------------------------------------------- edge width

  /** The `scaling` part of the network's edge options. */
  datatype Scaling = Scaling(min: Option<int>, max: Option<int>)

  /** The network's edge options, reduced to their `scaling`. */
  datatype EdgeOptions = EdgeOptions(scaling: Option<Scaling>)

  /** The options after the edge-width toggle: a defined `scaling.max` becomes `maxWidth`
      when edge width is on and `minWidth` when off; otherwise nothing changes. */
  function WidthScaled(options: EdgeOptions, edgeWidth: bool, minWidth: int, maxWidth: int): EdgeOptions
  {
    if options.scaling.Some? && options.scaling.value.max.Some? then
      options.(scaling := Some(options.scaling.value.(max := Some(if edgeWidth then maxWidth else minWidth))))
    else options
  }

  /** The toggle touches only a defined maximum, keeps the minimum, and the last call
      decides. */
  lemma WidthScaledFacts(options: EdgeOptions, edgeWidth: bool, again: bool, minWidth: int, maxWidth: int)
    ensures var r := WidthScaled(options, edgeWidth, minWidth, maxWidth);
      (options.scaling.None? || options.scaling.value.max.None?) ==> r == options
    ensures var r := WidthScaled(options, edgeWidth, minWidth, maxWidth);
      options.scaling.Some? && options.scaling.value.max.Some? ==>
        r.scaling == Some(Scaling(options.scaling.value.min, Some(if edgeWidth then maxWidth else minWidth)))
    ensures WidthScaled(WidthScaled(options, again, minWidth, maxWidth), edgeWidth, minWidth, maxWidth) ==
      WidthScaled(options, edgeWidth, minWidth, maxWidth)
  {
  }
}
