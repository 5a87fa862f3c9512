/**
 * The legacy front-end's `GraphManager` (plain JavaScript): the same drawn
 * graph as the Next.js hook, but filtering goes through one set of
 * element ids that collects passing nodes first and passing edges after,
 * and the node colours, known layouts and collected type sets live here.
 */
module GraphManager {
  import opened Wrappers
  import opened Seqs
  import opened Strings
  import opened GraphStore
  import opened GraphElements
  import opened GraphView

  // ---------------------------------------------------------------------------
  // Node types and colours
  // ---------------------------------------------------------------------------

  /** A type paired with itself as its keyword. */
  function SelfKeyed(t: string): (string, string) { (t, t) }

  /** The type table the legacy code walks: each type with the keyword that selects it. */
  const TypeMap: seq<(string, string)> := Map(NodeTypes, SelfKeyed)

  /** `getNodeTypeFromLabel`: the first table entry whose keyword the label contains. */
  function TypeFromLabel(labelText: string): string {
    if labelText == "" then UnknownType else TypeFromTable(labelText, TypeMap)
  }

  function TypeFromTable(labelText: string, table: seq<(string, string)>): string {
    if table == [] then UnknownType
    else if Contains(labelText, table[0].1) then table[0].0
    else TypeFromTable(labelText, table[1..])
  }

  /** The legacy lookup and the Next.js `extractNodeType` name the same type for every label. */
  lemma TypeFromLabelAgrees(labelText: string)
    ensures TypeFromLabel(labelText) == ExtractNodeType(labelText)
  {
    if labelText != "" {
      TableAgrees(labelText, NodeTypes);
    }
  }

  lemma {:induction false} TableAgrees(labelText: string, types: seq<string>)
    ensures TypeFromTable(labelText, Map(types, SelfKeyed)) ==
      var i := FirstContained(labelText, types);
      if i < |types| then types[i] else UnknownType
    decreases |types|
  {
    if types != [] {
      var table := Map(types, SelfKeyed);
      assert table[0] == (types[0], types[0]);
      assert table[1..] == Map(types[1..], SelfKeyed);
      TableAgrees(labelText, types[1..]);
    }
  }

  const DefaultColor := "#6c757d"

  /** The colour table in its declared order; `Unit` shares the default grey. */
  const ColorMap: seq<(string, string)> := [
    ("Equipment", "#667eea"), ("Sensor", "#28a745"), ("Variable", "#17a2b8"),
    ("Unit", "#6c757d"), ("Process", "#fd7e14"), ("Operation", "#e83e8c"),
    ("Material", "#20c997"), ("Product", "#6f42c1"), ("Area", "#ffc107"),
    ("WorkOrder", "#dc3545"), ("QualityControl", "#28a745"), ("Maintenance", "#fd7e14"),
    ("Batch", "#6f42c1"), ("Defect", "#dc3545")
  ]

  function ColorLookup(table: seq<(string, string)>, nodeType: string): Option<string> {
    if table == [] then None
    else if table[0].0 == nodeType then Some(table[0].1)
    else ColorLookup(table[1..], nodeType)
  }

  /** `getNodeColor`: the table colour of the type, grey for a missing or unknown type. */
  function NodeColor(nodeType: string): (r: string)
    ensures r == DefaultColor || exists i :: 0 <= i < |ColorMap| && r == ColorMap[i].1
  {
    ColorLookupSpec(ColorMap, nodeType);
    if nodeType == "" then DefaultColor else ColorLookup(ColorMap, nodeType).GetOr(DefaultColor)
  }

  lemma {:induction false} ColorLookupSpec(table: seq<(string, string)>, nodeType: string)
    ensures ColorLookup(table, nodeType).Some? <==> exists i :: 0 <= i < |table| && table[i].0 == nodeType
    ensures ColorLookup(table, nodeType).Some? ==>
      exists i :: 0 <= i < |table| && table[i] == (nodeType, ColorLookup(table, nodeType).value)
  {
    if table != [] {
      ColorLookupSpec(table[1..], nodeType);
      if ColorLookup(table[1..], nodeType).Some? && table[0].0 != nodeType {
        var i :| 0 <= i < |table[1..]| && table[1..][i] == (nodeType, ColorLookup(table[1..], nodeType).value);
        assert table[i + 1] == table[1..][i];
      }
      if exists i :: 0 <= i < |table| && table[i].0 == nodeType {
        var i :| 0 <= i < |table| && table[i].0 == nodeType;
        if i > 0 && table[0].0 != nodeType {
          assert table[1..][i - 1].0 == nodeType;
        }
      }
    }
  }

  /** A lookup finds the first row with the key. */
  lemma {:induction false} ColorLookupFirst(table: seq<(string, string)>, nodeType: string, i: nat)
    requires i < |table| && table[i].0 == nodeType
    requires forall k :: 0 <= k < i ==> table[k].0 != nodeType
    ensures ColorLookup(table, nodeType) == Some(table[i].1)
  {
    if i > 0 {
      ColorLookupFirst(table[1..], nodeType, i - 1);
    }
  }

  /** The colour table is keyed by the node types, in their order. */
  lemma ColorMapKeys()
    ensures |ColorMap| == |NodeTypes|
    ensures forall i :: 0 <= i < |ColorMap| ==> ColorMap[i].0 == NodeTypes[i]
  {
  }

  lemma UnknownNotAType()
    ensures UnknownType !in NodeTypes
  {
    forall i | 0 <= i < |NodeTypes| ensures NodeTypes[i] != UnknownType {
      assert |NodeTypes[i]| != 7 || NodeTypes[i][0] != 'U';
    }
  }

  /**
   * Each node type gets its table colour, `Unknown` and an empty type get
   * grey, and so does `Unit`, whose entry is the default colour itself.
   */
  lemma NodeColorSpec(nodeType: string)
    ensures nodeType == "" || nodeType == UnknownType ==> NodeColor(nodeType) == DefaultColor
    ensures forall i :: 0 <= i < |ColorMap| && ColorMap[i].0 == nodeType ==> NodeColor(nodeType) == ColorMap[i].1
    ensures NodeColor("Unit") == DefaultColor
  {
    NodeColorDefault(nodeType);
    forall i | 0 <= i < |ColorMap| && ColorMap[i].0 == nodeType
      ensures NodeColor(nodeType) == ColorMap[i].1
    {
      NodeColorTable(nodeType, i);
    }
    NodeColorUnit();
  }

  lemma NodeColorDefault(nodeType: string)
    ensures nodeType == "" || nodeType == UnknownType ==> NodeColor(nodeType) == DefaultColor
  {
    ColorMapKeys();
    UnknownNotAType();
    ColorLookupSpec(ColorMap, nodeType);
  }

  lemma NodeColorTable(nodeType: string, i: nat)
    requires i < |ColorMap| && ColorMap[i].0 == nodeType
    ensures NodeColor(nodeType) == ColorMap[i].1
  {
    ColorMapKeysDistinct();
    LookupDistinctKeys(ColorMap, nodeType, i);
  }

  /** The colour table's keys are non-empty and pairwise different. */
  lemma ColorMapKeysDistinct()
    ensures forall k :: 0 <= k < |ColorMap| ==> ColorMap[k].0 != ""
    ensures forall k, j :: 0 <= k < j < |ColorMap| ==> ColorMap[k].0 != ColorMap[j].0
  {
    ColorMapKeys();
    forall k, j | 0 <= k < j < |ColorMap| ensures ColorMap[k].0 != ColorMap[j].0 {
      NodeTypesDistinct(k, j);
    }
  }

  /** In a table with distinct keys, a lookup finds the row holding the key. */
  lemma LookupDistinctKeys(table: seq<(string, string)>, nodeType: string, i: nat)
    requires i < |table| && table[i].0 == nodeType
    requires forall k, j :: 0 <= k < j < |table| ==> table[k].0 != table[j].0
    ensures ColorLookup(table, nodeType) == Some(table[i].1)
  {
    ColorLookupFirst(table, nodeType, i);
  }

  lemma NodeColorUnit()
    ensures NodeColor("Unit") == DefaultColor
  {
    ColorMapKeys();
    forall k | 0 <= k < 3 ensures ColorMap[k].0 != "Unit" {
      NodeTypesDistinct(k, 3);
    }
    ColorLookupFirst(ColorMap, "Unit", 3);
  }

  /** Every type the label lookup yields, except `Unknown`, has a row in the colour table. */
  lemma EveryTypeColored(labelText: string)
    ensures TypeFromLabel(labelText) != UnknownType ==>
      exists i :: 0 <= i < |ColorMap| && ColorMap[i].0 == TypeFromLabel(labelText)
  {
    TypeFromLabelAgrees(labelText);
    ExtractNodeTypeSpec(labelText);
    ColorMapKeys();
  }

  // ---------------------------------------------------------------------------
  // Layouts by name
  // ---------------------------------------------------------------------------

  /** The key of each layout in the manager's layout table. */
  function LayoutName(layout: LayoutType): string {
    match layout
    case Cose => "cose"
    case Grid => "grid"
    case Hierarchical => "hierarchical"
    case Circle => "circle"
  }

  /** The layout a name selects, if the table has it. */
  function LayoutByName(name: string): (r: Option<LayoutType>)
    ensures r.Some? ==> LayoutName(r.value) == name
  {
    if name == "cose" then Some(Cose)
    else if name == "grid" then Some(Grid)
    else if name == "hierarchical" then Some(Hierarchical)
    else if name == "circle" then Some(Circle)
    else None
  }

  /** Naming a layout and looking the name up again gives back the layout. */
  lemma LayoutNameRoundTrip(layout: LayoutType)
    ensures LayoutByName(LayoutName(layout)) == Some(layout)
  {
  }

  // ---------------------------------------------------------------------------
  // Filtering through one id set
  // ---------------------------------------------------------------------------

  /** The ids of the nodes that pass the type filter. */
  function PassingNodeIds(nodes: seq<ViewNode>, selectedTypes: seq<string>): set<string> {
    set i | 0 <= i < |nodes| && NodePasses(nodes[i], selectedTypes) :: nodes[i].id
  }

  /** The edge pass: each edge whose ends are in the set (and whose relationship is selected) adds its id. */
  function EdgeFold(edges: seq<ViewEdge>, acc: set<string>, selectedRelationships: seq<string>): set<string>
    decreases |edges|
  {
    if edges == [] then acc
    else
      var e := edges[0];
      EdgeFold(edges[1..], if EdgePasses(e, acc, selectedRelationships) then acc + {e.id} else acc, selectedRelationships)
  }

  /** The final `filteredElements` of the legacy `filterByTypes`. */
  function FilteredElements(nodes: seq<ViewNode>, edges: seq<ViewEdge>, selectedTypes: seq<string>, selectedRelationships: seq<string>): set<string> {
    EdgeFold(edges, PassingNodeIds(nodes, selectedTypes), selectedRelationships)
  }

  function ShowNodeIfIn(ids: set<string>): ViewNode -> ViewNode {
    (n: ViewNode) => n.(shown := n.id in ids)
  }

  function ShowEdgeIfIn(ids: set<string>): ViewEdge -> ViewEdge {
    (e: ViewEdge) => e.(shown := e.id in ids)
  }

  /** No edge id is an endpoint of an edge. */
  ghost predicate EdgeIdsNotEndpoints(edges: seq<ViewEdge>) {
    forall j, k :: 0 <= j < |edges| && 0 <= k < |edges| ==> edges[j].id != edges[k].source && edges[j].id != edges[k].target
  }

  /**
   * When no edge id is an edge endpoint, the ids the edge pass adds do not
   * change what later edges see: the result is the starting set plus the
   * ids of the edges that pass against it.
   */
  lemma {:induction false} EdgeFoldSpec(edges: seq<ViewEdge>, acc: set<string>, selectedRelationships: seq<string>)
    requires EdgeIdsNotEndpoints(edges)
    ensures EdgeFold(edges, acc, selectedRelationships) == acc + PassingEdgeIds(edges, acc, selectedRelationships)
    decreases |edges|
  {
    if edges != [] {
      var e := edges[0];
      var rest := edges[1..];
      var acc' := if EdgePasses(e, acc, selectedRelationships) then acc + {e.id} else acc;
      assert EdgeIdsNotEndpoints(rest) by {
        forall j, k | 0 <= j < |rest| && 0 <= k < |rest|
          ensures rest[j].id != rest[k].source && rest[j].id != rest[k].target
        {
          assert rest[j] == edges[j + 1] && rest[k] == edges[k + 1];
        }
      }
      EdgeFoldSpec(rest, acc', selectedRelationships);
      forall k | 0 <= k < |rest|
        ensures EdgePasses(rest[k], acc', selectedRelationships) == EdgePasses(rest[k], acc, selectedRelationships)
      {
        assert rest[k] == edges[k + 1];
        assert e.id != edges[k + 1].source && e.id != edges[k + 1].target;
      }
      var all := PassingEdgeIds(edges, acc, selectedRelationships);
      var tail := PassingEdgeIds(rest, acc', selectedRelationships);
      assert all == (if EdgePasses(e, acc, selectedRelationships) then {e.id} else {}) + tail by {
        forall x | x in all
          ensures x in (if EdgePasses(e, acc, selectedRelationships) then {e.id} else {}) + tail
        {
          var j :| 0 <= j < |edges| && EdgePasses(edges[j], acc, selectedRelationships) && edges[j].id == x;
          if j > 0 {
            assert rest[j - 1] == edges[j];
          }
        }
        forall x | x in tail ensures x in all {
          var j :| 0 <= j < |rest| && EdgePasses(rest[j], acc', selectedRelationships) && rest[j].id == x;
          assert edges[j + 1] == rest[j];
        }
      }
    }
  }

  /** The ids of the edges whose ends are in `acc` and whose relationship is selected. */
  function PassingEdgeIds(edges: seq<ViewEdge>, acc: set<string>, selectedRelationships: seq<string>): set<string> {
    set j | 0 <= j < |edges| && EdgePasses(edges[j], acc, selectedRelationships) :: edges[j].id
  }

  lemma WellFormedEdgeIds(nodes: seq<ViewNode>, edges: seq<ViewEdge>)
    requires WellFormed(nodes, edges)
    ensures EdgeIdsNotEndpoints(edges)
  {
    forall j, k | 0 <= j < |edges| && 0 <= k < |edges|
      ensures edges[j].id != edges[k].source && edges[j].id != edges[k].target
    {
      var a :| 0 <= a < |nodes| && nodes[a].id == edges[k].source;
      var b :| 0 <= b < |nodes| && nodes[b].id == edges[k].target;
    }
  }

  lemma PassingShown(nodes: seq<ViewNode>, selectedTypes: seq<string>)
    ensures ShownNodeIds(FilterNodes(nodes, selectedTypes)) == PassingNodeIds(nodes, selectedTypes)
  {
    var ns := FilterNodes(nodes, selectedTypes);
    forall x | x in PassingNodeIds(nodes, selectedTypes) ensures x in ShownNodeIds(ns) {
      var i :| 0 <= i < |nodes| && NodePasses(nodes[i], selectedTypes) && nodes[i].id == x;
      assert ns[i].shown && ns[i].id == x;
    }
  }

  lemma NodeIdFiltered(nodes: seq<ViewNode>, edges: seq<ViewEdge>, passed: set<string>, selectedTypes: seq<string>, selectedRelationships: seq<string>, i: int)
    requires WellFormed(nodes, edges) && passed == PassingNodeIds(nodes, selectedTypes) && 0 <= i < |nodes|
    ensures nodes[i].id in passed + PassingEdgeIds(edges, passed, selectedRelationships) <==> NodePasses(nodes[i], selectedTypes)
  {
    assert forall a :: 0 <= a < |nodes| && a != i ==> nodes[a].id != nodes[i].id;
    assert forall j :: 0 <= j < |edges| ==> edges[j].id != nodes[i].id;
  }

  lemma EdgeIdFiltered(nodes: seq<ViewNode>, edges: seq<ViewEdge>, passed: set<string>, selectedTypes: seq<string>, selectedRelationships: seq<string>, j: int)
    requires WellFormed(nodes, edges) && passed == PassingNodeIds(nodes, selectedTypes) && 0 <= j < |edges|
    ensures edges[j].id in passed + PassingEdgeIds(edges, passed, selectedRelationships) <==> EdgePasses(edges[j], passed, selectedRelationships)
  {
    assert forall b :: 0 <= b < |edges| && b != j ==> edges[b].id != edges[j].id;
    assert forall a :: 0 <= a < |nodes| ==> nodes[a].id != edges[j].id;
  }

  /**
   * For a graph the library accepts (unique ids, edges between existing
   * nodes), the legacy single-set filter shows exactly what the Next.js
   * hook's filter shows: a node iff it passes the type filter, an edge iff
   * both ends passed and its relationship is selected.
   */
  lemma FilterAgreesWithHook(nodes: seq<ViewNode>, edges: seq<ViewEdge>, selectedTypes: seq<string>, selectedRelationships: seq<string>)
    requires WellFormed(nodes, edges)
    ensures var ids := FilteredElements(nodes, edges, selectedTypes, selectedRelationships);
      && Map(nodes, ShowNodeIfIn(ids)) == FilterNodes(nodes, selectedTypes)
      && Map(edges, ShowEdgeIfIn(ids)) == FilterEdges(edges, FilterNodes(nodes, selectedTypes), selectedRelationships)
  {
    var passed := PassingNodeIds(nodes, selectedTypes);
    WellFormedEdgeIds(nodes, edges);
    EdgeFoldSpec(edges, passed, selectedRelationships);
    PassingShown(nodes, selectedTypes);
    forall i | 0 <= i < |nodes| {
      NodeIdFiltered(nodes, edges, passed, selectedTypes, selectedRelationships, i);
    }
    forall j | 0 <= j < |edges| {
      EdgeIdFiltered(nodes, edges, passed, selectedTypes, selectedRelationships, j);
    }
  }

  // ---------------------------------------------------------------------------
  // The manager
  // ---------------------------------------------------------------------------

  class GraphManagerState {
    var nodes: seq<ViewNode>
    var edges: seq<ViewEdge>
    var currentLayout: LayoutType
    var engine: string
    var nodeTypes: set<string>
    var relationshipTypes: set<string>
    var filteredElements: set<string>

    /** A manager with an empty graph, laid out with `cose`. */
    constructor ()
      ensures nodes == [] && edges == [] && currentLayout == Cose && engine == LayoutEngine(Cose)
      ensures nodeTypes == {} && relationshipTypes == {} && filteredElements == {}
    {
      nodes := [];
      edges := [];
      currentLayout := Cose;
      engine := LayoutEngine(Cose);
      nodeTypes := {};
      relationshipTypes := {};
      filteredElements := {};
    }

    /** `applyLayout`: runs the engine of the current layout. */
    method ApplyLayout()
      modifies this
      ensures engine == LayoutEngine(currentLayout)
      ensures nodes == old(nodes) && edges == old(edges) && currentLayout == old(currentLayout)
      ensures nodeTypes == old(nodeTypes) && relationshipTypes == old(relationshipTypes)
      ensures filteredElements == old(filteredElements)
    {
      engine := LayoutEngine(currentLayout);
    }

    /** `changeLayout`: a name in the layout table becomes current and is run; any other name is ignored. */
    method ChangeLayout(name: string)
      modifies this
      ensures LayoutByName(name).Some? ==> currentLayout == LayoutByName(name).value && engine == LayoutEngine(currentLayout)
      ensures LayoutByName(name).None? ==> currentLayout == old(currentLayout) && engine == old(engine)
      ensures nodes == old(nodes) && edges == old(edges)
      ensures nodeTypes == old(nodeTypes) && relationshipTypes == old(relationshipTypes)
      ensures filteredElements == old(filteredElements)
    {
      var layout := LayoutByName(name);
      if layout.Some? {
        currentLayout := layout.value;
        ApplyLayout();
      }
    }

    /**
     * `collectTypes`: the node types become the set of types read from the
     * node labels, the relationship types the set of edge labels.
     */
    method CollectTypes()
      modifies this
      ensures nodeTypes == set i | 0 <= i < |nodes| :: TypeFromLabel(nodes[i].labelText)
      ensures relationshipTypes == set j | 0 <= j < |edges| :: edges[j].labelText
      ensures nodes == old(nodes) && edges == old(edges) && currentLayout == old(currentLayout)
      ensures engine == old(engine) && filteredElements == old(filteredElements)
    {
      var types: set<string> := {};
      for i := 0 to |nodes|
        invariant types == set k | 0 <= k < i :: TypeFromLabel(nodes[k].labelText)
      {
        types := types + {TypeFromLabel(nodes[i].labelText)};
      }
      var rels: set<string> := {};
      for j := 0 to |edges|
        invariant rels == set k | 0 <= k < j :: edges[k].labelText
      {
        rels := rels + {edges[j].labelText};
      }
      nodeTypes := types;
      relationshipTypes := rels;
    }

    /**
     * The graph part of `loadGraph`: every element is replaced by the
     * given ones (shown), the types are collected and the current layout
     * is run.
     */
    method LoadElements(newNodes: seq<CyNode>, newEdges: seq<CyEdge>)
      modifies this
      ensures nodes == Map(newNodes, ViewOfNode) && edges == Map(newEdges, ViewOfEdge)
      ensures nodeTypes == set i | 0 <= i < |newNodes| :: TypeFromLabel(newNodes[i].labelText)
      ensures relationshipTypes == set j | 0 <= j < |newEdges| :: newEdges[j].labelText
      ensures currentLayout == old(currentLayout) && engine == LayoutEngine(currentLayout)
      ensures filteredElements == old(filteredElements)
    {
      nodes := Map(newNodes, ViewOfNode);
      edges := Map(newEdges, ViewOfEdge);
      CollectTypes();
      ApplyLayout();
    }

    /**
     * `filterByTypes`: passing node ids are collected into
     * `filteredElements`, then the ids of edges whose ends are in the set
     * and whose relationship is selected; every element is then shown
     * exactly when its id is in the set.
     */
    method FilterByTypes(selectedTypes: seq<string>, selectedRelationships: seq<string>)
      modifies this
      ensures filteredElements == FilteredElements(old(nodes), old(edges), selectedTypes, selectedRelationships)
      ensures nodes == Map(old(nodes), ShowNodeIfIn(filteredElements))
      ensures edges == Map(old(edges), ShowEdgeIfIn(filteredElements))
      ensures currentLayout == old(currentLayout) && engine == LayoutEngine(currentLayout)
      ensures nodeTypes == old(nodeTypes) && relationshipTypes == old(relationshipTypes)
    {
      var ids, ns, es := FilterPass(nodes, edges, selectedTypes, selectedRelationships);
      nodes, edges, filteredElements := ns, es, ids;
      ApplyLayout();
    }

    /** `searchNodes`: the same element pass as the Next.js hook, then the current layout. */
    method SearchNodes(query: string)
      modifies this
      ensures nodes == Map(old(nodes), SearchNode(query))
      ensures edges == Map(old(edges), SearchEdge(query))
      ensures currentLayout == old(currentLayout) && engine == LayoutEngine(currentLayout)
      ensures nodeTypes == old(nodeTypes) && relationshipTypes == old(relationshipTypes)
      ensures filteredElements == old(filteredElements)
    {
      nodes, edges := SearchElements(nodes, edges, query);
      ApplyLayout();
    }
  }

  /**
   * The element passes of the legacy `filterByTypes`: node ids, then edge
   * ids, into one set, then every element shown exactly when its id is in
   * the set.
   */
  method FilterPass(nodes: seq<ViewNode>, edges: seq<ViewEdge>, selectedTypes: seq<string>, selectedRelationships: seq<string>)
    returns (ids: set<string>, ns: seq<ViewNode>, es: seq<ViewEdge>)
    ensures ids == FilteredElements(nodes, edges, selectedTypes, selectedRelationships)
    ensures ns == Map(nodes, ShowNodeIfIn(ids))
    ensures es == Map(edges, ShowEdgeIfIn(ids))
  {
    ids := {};
    for i := 0 to |nodes|
      invariant ids == PassingNodeIds(nodes[..i], selectedTypes)
    {
      assert nodes[..i + 1] == nodes[..i] + [nodes[i]];
      PassingSnoc(nodes[..i], nodes[i], selectedTypes);
      if NodePasses(nodes[i], selectedTypes) {
        ids := ids + {nodes[i].id};
      }
    }
    assert nodes[..|nodes|] == nodes;
    for j := 0 to |edges|
      invariant EdgeFold(edges[j..], ids, selectedRelationships) == FilteredElements(nodes, edges, selectedTypes, selectedRelationships)
    {
      assert edges[j..][1..] == edges[j + 1..];
      var e := edges[j];
      if EdgePasses(e, ids, selectedRelationships) {
        ids := ids + {e.id};
      }
    }
    ns := nodes;
    for i := 0 to |nodes|
      invariant |ns| == |nodes|
      invariant forall k :: 0 <= k < i ==> ns[k] == ShowNodeIfIn(ids)(nodes[k])
      invariant forall k :: i <= k < |ns| ==> ns[k] == nodes[k]
    {
      ns := ns[i := ns[i].(shown := ns[i].id in ids)];
    }
    es := edges;
    for j := 0 to |edges|
      invariant |es| == |edges|
      invariant forall k :: 0 <= k < j ==> es[k] == ShowEdgeIfIn(ids)(edges[k])
      invariant forall k :: j <= k < |es| ==> es[k] == edges[k]
    {
      es := es[j := es[j].(shown := es[j].id in ids)];
    }
  }

  /** The types collected from any graph are table types or `Unknown`. */
  lemma CollectedTypesKnown(nodes: seq<ViewNode>)
    ensures forall t :: t in (set i | 0 <= i < |nodes| :: TypeFromLabel(nodes[i].labelText)) ==>
      t == UnknownType || t in NodeTypes
  {
    forall i | 0 <= i < |nodes|
      ensures TypeFromLabel(nodes[i].labelText) == UnknownType || TypeFromLabel(nodes[i].labelText) in NodeTypes
    {
      TypeFromLabelAgrees(nodes[i].labelText);
      ExtractNodeTypeSpec(nodes[i].labelText);
    }
  }

  lemma PassingSnoc(ns: seq<ViewNode>, n: ViewNode, selectedTypes: seq<string>)
    ensures PassingNodeIds(ns + [n], selectedTypes) ==
      PassingNodeIds(ns, selectedTypes) + (if NodePasses(n, selectedTypes) then {n.id} else {})
  {
    var l := ns + [n];
    forall x | x in PassingNodeIds(l, selectedTypes)
      ensures x in PassingNodeIds(ns, selectedTypes) + (if NodePasses(n, selectedTypes) then {n.id} else {})
    {
      var i :| 0 <= i < |l| && NodePasses(l[i], selectedTypes) && l[i].id == x;
      if i < |ns| {
        assert ns[i] == l[i];
      }
    }
    forall x | x in PassingNodeIds(ns, selectedTypes) ensures x in PassingNodeIds(l, selectedTypes) {
      var i :| 0 <= i < |ns| && NodePasses(ns[i], selectedTypes) && ns[i].id == x;
      assert l[i] == ns[i];
    }
    if NodePasses(n, selectedTypes) {
      assert l[|ns|] == n;
    }
  }
}
