/** The node-visuals controller: it builds the dimension strategy from the explicit data
    collected for a network (or reuses the shared one), tells whether the legend hides a
    node, and brings every node of the network to its coloured, focused or colourless look
    when the selection changes. The vis.js data set is the sequence of its node objects,
    each held once; committing the edited nodes back to it is not modelled. */
module NodeVisualsCtrl {
  import opened Wrappers
  import opened AssocMaps
  import opened UserRecords
  import opened NodeConstants
  import opened AuxTypes
  import opened ManagerStrats
  import opened NodeDimensionStrat
  import Nodes
  import E = NodeExplicitComms

  /** The legend configuration: per explicit-community key, the values the legend hides. */
  type LegendConfig = seq<(string, seq<(string, bool)>)>

  const HiddenLabelColor := "#00000000"
  const ShownLabelColor := "#000000FF"

  /** `legendConfig.get(key)?.get(value)` is truthy. */
  predicate LegendHides(legendConfig: LegendConfig, key: string, value: string)
  {
    match Get(legendConfig, key)
    case None => false
    case Some(valuesMap) => Get(valuesMap, value) == Some(true)
  }

  /** The intended `isHidedByLegend`: one of the node's key-value pairs is hidden, or the
      node is anonymous and the legend hides anonymous users. */
  predicate HiddenByLegend(legendConfig: LegendConfig, explicitCommunity: seq<(string, string)>,
                           isAnonimous: bool, anonymousGroupKey: string)
  {
    (exists i :: 0 <= i < |explicitCommunity| && LegendHides(legendConfig, explicitCommunity[i].0, explicitCommunity[i].1)) ||
    (isAnonimous && LegendHides(legendConfig, anonymousGroupKey + "User", anonymousGroupKey + "User"))
  }

  /** `isHidedByLegend` as written: it reads `node.isAnonymous`, a field no user record has
      (the record's flag is `isAnonimous`), so the anonymous clause never holds. */
  predicate HiddenByLegendAsWritten(legendConfig: LegendConfig, explicitCommunity: seq<(string, string)>)
  {
    exists i :: 0 <= i < |explicitCommunity| && LegendHides(legendConfig, explicitCommunity[i].0, explicitCommunity[i].1)
  }

  /** With the legend set to hide anonymous users, an anonymous user without explicit
      community is hidden by the intended check and shown as written; the two agree on
      every user that is not anonymous, and as written hides no more than intended. */
  lemma AnonymousUserShownAsWritten(anonymousGroupKey: string)
    ensures var legendConfig := [(anonymousGroupKey + "User", [(anonymousGroupKey + "User", true)])];
      HiddenByLegend(legendConfig, [], true, anonymousGroupKey) && !HiddenByLegendAsWritten(legendConfig, [])
    ensures forall lc, ec :: HiddenByLegendAsWritten(lc, ec) == HiddenByLegend(lc, ec, false, anonymousGroupKey)
    ensures forall lc, ec, anon :: HiddenByLegendAsWritten(lc, ec) ==> HiddenByLegend(lc, ec, anon, anonymousGroupKey)
  {
    var legendConfig := [(anonymousGroupKey + "User", [(anonymousGroupKey + "User", true)])];
    assert LegendHides(legendConfig, anonymousGroupKey + "User", anonymousGroupKey + "User");
  }

  /** The attribute list `createDimensionStrategy` builds: the first three explicit keys in
      order, for colour, shape and border; only the border one follows the border option. */
  function AttributesOf(explicitData: seq<E.ExplicitData>, showBorder: bool): (r: seq<DimAttribute>)
    ensures |r| == if |explicitData| < 3 then |explicitData| else 3
    ensures forall i :: 0 <= i < |r| ==> r[i].key == explicitData[i].key && r[i].values == explicitData[i].values
    ensures forall i :: 0 <= i < |r| ==>
      r[i].dimension == (if i == 0 then Nodes.Color else if i == 1 then Nodes.Shape else Nodes.Border) &&
      r[i].active == (i < 2 || showBorder)
  {
    (if |explicitData| > 0 then [DimAttribute(explicitData[0].key, explicitData[0].values, Nodes.Color, true)] else []) +
    (if |explicitData| > 1 then [DimAttribute(explicitData[1].key, explicitData[1].values, Nodes.Shape, true)] else []) +
    (if |explicitData| > 2 then [DimAttribute(explicitData[2].key, explicitData[2].values, Nodes.Border, showBorder)] else [])
  }

  /** The strategy built from the explicit data colours by the first key, shapes by the
      second and borders by the third, each with the values collected for it; colour and
      shape are active and the border is active exactly when the border option is on. */
  lemma StrategyFollowsExplicitData(explicitData: seq<E.ExplicitData>, showBorder: bool, nc: NodeConst, getters: DimensionGetters)
    ensures var s := StrategiesOf(AttributesOf(explicitData, showBorder), nc, getters);
      s.colorAttr == (if |explicitData| > 0 then Some(DimAttribute(explicitData[0].key, explicitData[0].values, Nodes.Color, true)) else None) &&
      s.shapeAttr == (if |explicitData| > 1 then Some(DimAttribute(explicitData[1].key, explicitData[1].values, Nodes.Shape, true)) else None) &&
      s.borderAttr == (if |explicitData| > 2 then Some(DimAttribute(explicitData[2].key, explicitData[2].values, Nodes.Border, showBorder)) else None)
  {
    var attrs := AttributesOf(explicitData, showBorder);
    if |attrs| > 0 {
      assert attrs[0].dimension == Nodes.Color;
    }
    if |attrs| > 1 {
      assert attrs[1].dimension == Nodes.Shape;
    }
    if |attrs| > 2 {
      assert attrs[2].dimension == Nodes.Border;
    }
  }

  /** `updateNodeLabel(node, hideLabel)`: only the label colour changes. */
  function Labelled(v: Visual, hideLabel: bool): Visual
  {
    var c := if hideLabel then HiddenLabelColor else ShownLabelColor;
    v.(font := Some(if v.font.Some? then v.font.value.(color := Some(c)) else Font(None, None, Some(c))))
  }

  /** The label is transparent exactly when hidden, the label offsets are kept, nothing else
      changes, and the last call decides. */
  lemma LabelledFacts(v: Visual, hideLabel: bool, again: bool)
    ensures var r := Labelled(v, hideLabel);
      r.font.Some? && (r.font.value.color == Some(HiddenLabelColor) <==> hideLabel) &&
      r == v.(font := r.font)
    ensures v.font.Some? ==> (Labelled(v, hideLabel).font.value.vadjust == v.font.value.vadjust &&
      Labelled(v, hideLabel).font.value.selectedVAdjust == v.font.value.selectedVAdjust)
    ensures Labelled(Labelled(v, again), hideLabel) == Labelled(v, hideLabel)
  {
  }

  /** A node's look when the whole network is coloured: colourless when hidden by the
      legend, else the default look. */
  function ColoredOrHidden(s: Strategies, hidden: bool, u: UserFacts, v: Visual): Result<Visual>
  {
    if hidden then ColorlessOf(s, u, v) else Ok(DefaultOf(s, u, v, false))
  }

  /** A node's look after `selectNodes`: hidden by the legend, then selected, then focused,
      else colourless. */
  function SelectedLook(s: Strategies, hidden: bool, selected: bool, focused: bool, u: UserFacts, v: Visual): Result<Visual>
  {
    if hidden then ColorlessOf(s, u, v)
    else if selected then Ok(DefaultOf(s, u, v, false))
    else if focused then Ok(DefaultOf(s, u, v, true))
    else ColorlessOf(s, u, v)
  }

  /** A node the legend does not hide is never greyed out when it is selected or focused,
      and a greyed-out node only throws when it is an anonymous user without a colour. */
  lemma SelectedLookFacts(s: Strategies, hidden: bool, selected: bool, focused: bool, u: UserFacts, v: Visual)
    ensures !hidden && (selected || focused) ==>
      SelectedLook(s, hidden, selected, focused, u, v) == Ok(DefaultOf(s, u, v, !selected))
    ensures SelectedLook(s, hidden, selected, focused, u, v).Err? ==> u.isAnonimous && v.color.None?
    ensures !u.isAnonimous || v.color.Some? ==> SelectedLook(s, hidden, selected, focused, u, v).Ok?
  {
    ColorlessThrowsOnlyForUncoloredAnonymous(s, u, v);
  }

  /** Whether the node is hidden by the legend. */
  predicate NodeHidden(legendConfig: LegendConfig, nc: NodeConst, node: UserData)
  {
    HiddenByLegend(legendConfig, node.explicitCommunity, node.isAnonimous, nc.anonymousGroupKey)
  }

  /** The ids `selectNodes` returns: those of the nodes shown in focus, in data set order. */
  function Existing(nodes: seq<UserData>, legendConfig: LegendConfig, nc: NodeConst,
                    selected: seq<string>, focused: seq<string>): (r: seq<string>)
    ensures |r| <= |nodes|
  {
    if nodes == [] then []
    else
      var n := nodes[|nodes| - 1];
      var rest := Existing(nodes[..|nodes| - 1], legendConfig, nc, selected, focused);
      if !NodeHidden(legendConfig, nc, n) && n.id !in selected && n.id in focused then rest + [n.id] else rest
  }

  /** An id is returned exactly when some node with that id is not hidden by the legend, not
      selected, and focused. */
  lemma {:induction false} ExistingMembers(nodes: seq<UserData>, legendConfig: LegendConfig, nc: NodeConst,
                                           selected: seq<string>, focused: seq<string>, x: string)
    ensures x in Existing(nodes, legendConfig, nc, selected, focused) <==>
      exists i :: 0 <= i < |nodes| && nodes[i].id == x && !NodeHidden(legendConfig, nc, nodes[i]) &&
        x !in selected && x in focused
  {
    if nodes != [] {
      var init := nodes[..|nodes| - 1];
      ExistingMembers(init, legendConfig, nc, selected, focused, x);
      assert forall i :: 0 <= i < |init| ==> init[i] == nodes[i];
    }
  }

  class NodeVisualsCtrl {
    var dimStrat: NodeDimensionStrategy
    var legendConfig: LegendConfig
    /** Nodes currently selected. */
    var selectedNodes: seq<string>
    /** Nodes the user selected and focuses on. */
    var focusedNodes: seq<string>
    /** The node constants. */
    const nc: NodeConst
    /** Whether the constructor built the strategy and reported it through
        `setDimensionStrategy`. */
    const createdStrategy: bool

    /** The three strategies of the dimension strategy share their constants. */
    predicate Valid()
      reads this
    {
      dimStrat.shape.nc == dimStrat.color.nc && dimStrat.border.nc == dimStrat.color.nc
    }

    /** `new NodeVisualsCtrl(dimStrat, sf, explicitData, viewOptions, unique)`, with the
        border option and the legend configuration of `viewOptions` passed on their own. */
    constructor (dimStrat: Option<NodeDimensionStrategy>, explicitData: seq<E.ExplicitData>, showBorder: bool,
                 legendConfig: LegendConfig, unique: bool, nc: NodeConst, getters: DimensionGetters)
      requires dimStrat.Some? ==> dimStrat.value.shape.nc == dimStrat.value.color.nc &&
                                  dimStrat.value.border.nc == dimStrat.value.color.nc
      ensures createdStrategy <==> dimStrat.None? || unique
      ensures createdStrategy ==> (fresh(this.dimStrat) &&
        this.dimStrat.State() == StrategiesOf(AttributesOf(explicitData, showBorder), nc, getters) &&
        this.dimStrat.legendActions == [Dims(AttributesOf(explicitData, showBorder))])
      ensures !createdStrategy ==> this.dimStrat == dimStrat.value
      ensures this.legendConfig == legendConfig && selectedNodes == [] && focusedNodes == [] && this.nc == nc
      ensures Valid()
    {
      if dimStrat.None? || unique {
        var ds := CreateDimensionStrategy(explicitData, showBorder, nc, getters);
        this.dimStrat := ds;
        createdStrategy := true;
      } else {
        this.dimStrat := dimStrat.value;
        createdStrategy := false;
      }
      this.legendConfig := legendConfig;
      this.nc := nc;
      selectedNodes, focusedNodes := [], [];
    }

    /** `createDimensionStrategy(explicitData, showBorder, setLegendData)`. */
    static method CreateDimensionStrategy(explicitData: seq<E.ExplicitData>, showBorder: bool, nc: NodeConst,
                                          getters: DimensionGetters) returns (ds: NodeDimensionStrategy)
      ensures fresh(ds) && ds.shape.nc == ds.color.nc && ds.border.nc == ds.color.nc
      ensures ds.State() == StrategiesOf(AttributesOf(explicitData, showBorder), nc, getters)
      ensures ds.attributesArray == AttributesOf(explicitData, showBorder)
      ensures ds.legendActions == [Dims(AttributesOf(explicitData, showBorder))]
    {
      var attributes: seq<DimAttribute> := [];
      if |explicitData| > 0 {
        attributes := attributes + [DimAttribute(explicitData[0].key, explicitData[0].values, Nodes.Color, true)];
      }
      if |explicitData| > 1 {
        attributes := attributes + [DimAttribute(explicitData[1].key, explicitData[1].values, Nodes.Shape, true)];
      }
      if |explicitData| > 2 {
        attributes := attributes + [DimAttribute(explicitData[2].key, explicitData[2].values, Nodes.Border, showBorder)];
      }
      assert attributes == AttributesOf(explicitData, showBorder);
      ds := new NodeDimensionStrategy(attributes, nc, getters);
    }

    /** `isHidedByLegend(node)`, with the anonymous clause reading the record's
        `isAnonimous` flag. */
    method IsHidedByLegend(node: UserData) returns (hideNode: bool)
      ensures hideNode == NodeHidden(legendConfig, nc, node)
    {
      hideNode := false;
      var ec := node.explicitCommunity;
      var i := 0;
      while i < |ec|
        invariant 0 <= i <= |ec|
        invariant forall j :: 0 <= j < i ==> !LegendHides(legendConfig, ec[j].0, ec[j].1)
      {
        if LegendHides(legendConfig, ec[i].0, ec[i].1) {
          hideNode := true;
          break;
        }
        i := i + 1;
      }
      if node.isAnonimous && LegendHides(legendConfig, nc.anonymousGroupKey + "User", nc.anonymousGroupKey + "User") {
        hideNode := true;
      }
    }

    /** `updateNodeLabel(node, hideLabel)`. */
    static method UpdateNodeLabel(node: UserData, hideLabel: bool)
      modifies node
      ensures node.Visuals() == Labelled(old(node.Visuals()), hideLabel)
    {
      var c := if hideLabel then HiddenLabelColor else ShownLabelColor;
      if node.font.Some? {
        node.font := Some(node.font.value.(color := Some(c)));
      } else {
        node.font := Some(Font(None, None, Some(c)));
      }
    }

    /** `coloredNodeVisuals(node)`. */
    method ColoredNodeVisuals(node: UserData)
      requires Valid()
      modifies node
      ensures node.Visuals() == DefaultOf(dimStrat.State(), node.Facts(), old(node.Visuals()), false)
    {
      dimStrat.NodeToDefault(node, false);
    }

    /** `focusedNodeVisuals(node)`. */
    method FocusedNodeVisuals(node: UserData)
      requires Valid()
      modifies node
      ensures node.Visuals() == DefaultOf(dimStrat.State(), node.Facts(), old(node.Visuals()), true)
    {
      dimStrat.NodeToDefault(node, true);
    }

    /** `hideNodeVisuals(node)`; the error is the TypeError `nodeToColorless` raises. */
    method HideNodeVisuals(node: UserData) returns (r: Result<()>)
      requires Valid()
      modifies node
      ensures var out := ColorlessOf(dimStrat.State(), node.Facts(), old(node.Visuals()));
        (r.Ok? <==> out.Ok?) && (out.Ok? ==> node.Visuals() == out.value)
    {
      r := dimStrat.NodeToColorless(node);
    }

    /** `setNodeInitialVisuals(node, hideLabel)`: the coloured or colourless look, then the
        label; a TypeError stops it before the label. */
    method SetNodeInitialVisuals(node: UserData, hideLabel: bool) returns (r: Result<()>)
      requires Valid()
      modifies node
      ensures var out := ColoredOrHidden(dimStrat.State(), NodeHidden(legendConfig, nc, node), node.Facts(), old(node.Visuals()));
        (r.Ok? <==> out.Ok?) && (out.Ok? ==> node.Visuals() == Labelled(out.value, hideLabel))
    {
      var hidden := IsHidedByLegend(node);
      if hidden {
        r := HideNodeVisuals(node);
        if r.Err? {
          return;
        }
      } else {
        ColoredNodeVisuals(node);
        r := Ok(());
      }
      UpdateNodeLabel(node, hideLabel);
    }

    /** `toggleNodeLabels(allNodes, hideLabel)`. */
    method ToggleNodeLabels(allNodes: seq<UserData>, hideLabel: bool)
      requires forall i, j :: 0 <= i < j < |allNodes| ==> allNodes[i] != allNodes[j]
      modifies set n | n in allNodes
      ensures forall i :: 0 <= i < |allNodes| ==> allNodes[i].Visuals() == Labelled(old(allNodes[i].Visuals()), hideLabel)
    {
      for k := 0 to |allNodes|
        invariant forall i :: 0 <= i < k ==> allNodes[i].Visuals() == Labelled(old(allNodes[i].Visuals()), hideLabel)
        invariant forall i :: k <= i < |allNodes| ==> allNodes[i].Visuals() == old(allNodes[i].Visuals())
      {
        UpdateNodeLabel(allNodes[k], hideLabel);
      }
    }

    /** `selectNodes(allNodes, selectedNodes, focusedId, legendConfig)`: the ids of the
        nodes shown in focus, or the TypeError that stops the walk at some node, after the
        nodes before it got their look and with the nodes after it untouched. */
    method SelectNodes(allNodes: seq<UserData>, selectedNodes: seq<string>, focusedId: seq<string>,
                       legendConfig: Option<LegendConfig>) returns (r: Result<seq<string>>)
      requires Valid()
      requires forall i, j :: 0 <= i < j < |allNodes| ==> allNodes[i] != allNodes[j]
      modifies this, set n | n in allNodes
      ensures this.selectedNodes == selectedNodes && focusedNodes == focusedId
      ensures this.legendConfig == if legendConfig.Some? then legendConfig.value else old(this.legendConfig)
      ensures dimStrat == old(dimStrat) && Valid()
      ensures r.Ok? ==> r.value == Existing(allNodes, this.legendConfig, nc, selectedNodes, focusedId)
      ensures r.Ok? ==> forall i :: 0 <= i < |allNodes| ==>
        SelectedLook(dimStrat.State(), NodeHidden(this.legendConfig, nc, allNodes[i]), allNodes[i].id in selectedNodes,
                     allNodes[i].id in focusedId, allNodes[i].Facts(), old(allNodes[i].Visuals())) == Ok(allNodes[i].Visuals())
      ensures r.Err? ==> exists k :: (0 <= k < |allNodes| &&
        SelectedLook(dimStrat.State(), NodeHidden(this.legendConfig, nc, allNodes[k]), allNodes[k].id in selectedNodes,
                     allNodes[k].id in focusedId, allNodes[k].Facts(), old(allNodes[k].Visuals())).Err? &&
        (forall i :: 0 <= i < k ==>
          SelectedLook(dimStrat.State(), NodeHidden(this.legendConfig, nc, allNodes[i]), allNodes[i].id in selectedNodes,
                       allNodes[i].id in focusedId, allNodes[i].Facts(), old(allNodes[i].Visuals())) == Ok(allNodes[i].Visuals())) &&
        (forall i :: k < i < |allNodes| ==> allNodes[i].Visuals() == old(allNodes[i].Visuals())))
    {
      this.selectedNodes := selectedNodes;
      this.focusedNodes := focusedId;
      if legendConfig.Some? {
        this.legendConfig := legendConfig.value;
      }
      r := SelectAll(allNodes, selectedNodes, focusedId);
    }

    /** The `forEach` of `selectNodes` over the nodes, once the selection, the focus and
        the legend are stored: it stops at the first node whose look throws. */
    method SelectAll(allNodes: seq<UserData>, selectedNodes: seq<string>, focusedId: seq<string>)
      returns (r: Result<seq<string>>)
      requires Valid()
      requires forall i, j :: 0 <= i < j < |allNodes| ==> allNodes[i] != allNodes[j]
      modifies set n | n in allNodes
      ensures r.Ok? ==> r.value == Existing(allNodes, legendConfig, nc, selectedNodes, focusedId)
      ensures r.Ok? ==> forall i :: 0 <= i < |allNodes| ==>
        SelectedLook(dimStrat.State(), NodeHidden(legendConfig, nc, allNodes[i]), allNodes[i].id in selectedNodes,
                     allNodes[i].id in focusedId, allNodes[i].Facts(), old(allNodes[i].Visuals())) == Ok(allNodes[i].Visuals())
      ensures r.Err? ==> exists k :: (0 <= k < |allNodes| &&
        SelectedLook(dimStrat.State(), NodeHidden(legendConfig, nc, allNodes[k]), allNodes[k].id in selectedNodes,
                     allNodes[k].id in focusedId, allNodes[k].Facts(), old(allNodes[k].Visuals())).Err? &&
        (forall i :: 0 <= i < k ==>
          SelectedLook(dimStrat.State(), NodeHidden(legendConfig, nc, allNodes[i]), allNodes[i].id in selectedNodes,
                       allNodes[i].id in focusedId, allNodes[i].Facts(), old(allNodes[i].Visuals())) == Ok(allNodes[i].Visuals())) &&
        (forall i :: k < i < |allNodes| ==> allNodes[i].Visuals() == old(allNodes[i].Visuals())))
    {
      var s := dimStrat.State();
      var existingNodes: seq<string> := [];
      for k := 0 to |allNodes|
        invariant existingNodes == Existing(allNodes[..k], legendConfig, nc, selectedNodes, focusedId)
        invariant forall i :: 0 <= i < k ==>
          SelectedLook(s, NodeHidden(legendConfig, nc, allNodes[i]), allNodes[i].id in selectedNodes,
                       allNodes[i].id in focusedId, allNodes[i].Facts(), old(allNodes[i].Visuals())) == Ok(allNodes[i].Visuals())
        invariant forall i :: k <= i < |allNodes| ==> allNodes[i].Visuals() == old(allNodes[i].Visuals())
      {
        var node := allNodes[k];
        assert allNodes[..k + 1][..k] == allNodes[..k];
        var out, inFocus := SelectNode(node, selectedNodes, focusedId);
        if out.Err? {
          return Err(out.error);
        }
        if inFocus {
          existingNodes := existingNodes + [node.id];
        }
      }
      assert allNodes[..|allNodes|] == allNodes;
      r := Ok(existingNodes);
    }

    /** The body of the `forEach` in `selectNodes` for one node: its new look, and whether
        it is shown in focus (and so reported). */
    method SelectNode(node: UserData, selectedNodes: seq<string>, focusedId: seq<string>)
      returns (r: Result<()>, inFocus: bool)
      requires Valid()
      modifies node
      ensures var out := SelectedLook(dimStrat.State(), NodeHidden(legendConfig, nc, node), node.id in selectedNodes,
                                      node.id in focusedId, node.Facts(), old(node.Visuals()));
        (r.Ok? <==> out.Ok?) && (out.Ok? ==> node.Visuals() == out.value)
      ensures inFocus <==> !NodeHidden(legendConfig, nc, node) && node.id !in selectedNodes && node.id in focusedId
    {
      inFocus := false;
      var hidden := IsHidedByLegend(node);
      if hidden {
        r := HideNodeVisuals(node);
      } else if node.id in selectedNodes {
        ColoredNodeVisuals(node);
        r := Ok(());
      } else if node.id in focusedId {
        inFocus := true;
        FocusedNodeVisuals(node);
        r := Ok(());
      } else {
        r := HideNodeVisuals(node);
      }
    }

    /** `colorAllNodes(allNodes, legendConfig)`: as `selectNodes` with nothing selected or
        focused, each node coloured unless the legend hides it. */
    method ColorAllNodes(allNodes: seq<UserData>, legendConfig: Option<LegendConfig>) returns (r: Result<()>)
      requires Valid()
      requires forall i, j :: 0 <= i < j < |allNodes| ==> allNodes[i] != allNodes[j]
      modifies this, set n | n in allNodes
      ensures selectedNodes == [] && focusedNodes == []
      ensures this.legendConfig == if legendConfig.Some? then legendConfig.value else old(this.legendConfig)
      ensures dimStrat == old(dimStrat) && Valid()
      ensures r.Ok? ==> forall i :: 0 <= i < |allNodes| ==>
        ColoredOrHidden(dimStrat.State(), NodeHidden(this.legendConfig, nc, allNodes[i]), allNodes[i].Facts(),
                        old(allNodes[i].Visuals())) == Ok(allNodes[i].Visuals())
      ensures r.Err? ==> exists k :: (0 <= k < |allNodes| &&
        ColoredOrHidden(dimStrat.State(), NodeHidden(this.legendConfig, nc, allNodes[k]), allNodes[k].Facts(),
                        old(allNodes[k].Visuals())).Err? &&
        (forall i :: 0 <= i < k ==>
          ColoredOrHidden(dimStrat.State(), NodeHidden(this.legendConfig, nc, allNodes[i]), allNodes[i].Facts(),
                          old(allNodes[i].Visuals())) == Ok(allNodes[i].Visuals())) &&
        (forall i :: k < i < |allNodes| ==> allNodes[i].Visuals() == old(allNodes[i].Visuals())))
    {
      selectedNodes := [];
      focusedNodes := [];
      if legendConfig.Some? {
        this.legendConfig := legendConfig.value;
      }
      var s := dimStrat.State();
      var lc := this.legendConfig;
      for k := 0 to |allNodes|
        invariant selectedNodes == [] && focusedNodes == [] && this.legendConfig == lc
        invariant dimStrat == old(dimStrat) && dimStrat.State() == s
        invariant forall i :: 0 <= i < k ==>
          ColoredOrHidden(s, NodeHidden(lc, nc, allNodes[i]), allNodes[i].Facts(),
                          old(allNodes[i].Visuals())) == Ok(allNodes[i].Visuals())
        invariant forall i :: k <= i < |allNodes| ==> allNodes[i].Visuals() == old(allNodes[i].Visuals())
      {
        var node := allNodes[k];
        var out := ColorNode(node);
        if out.Err? {
          return Err(out.error);
        }
      }
      r := Ok(());
    }

    /** The body of the `forEach` in `colorAllNodes` for one node. */
    method ColorNode(node: UserData) returns (r: Result<()>)
      requires Valid()
      modifies node
      ensures var out := ColoredOrHidden(dimStrat.State(), NodeHidden(legendConfig, nc, node), node.Facts(), old(node.Visuals()));
        (r.Ok? <==> out.Ok?) && (out.Ok? ==> node.Visuals() == out.value)
    {
      var hidden := IsHidedByLegend(node);
      if hidden {
        r := HideNodeVisuals(node);
      } else {
        ColoredNodeVisuals(node);
        r := Ok(());
      }
    }
  }
}
