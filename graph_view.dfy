/**
 * The drawn graph as the Next.js `useCytoscape` hook handles it: a list of
 * nodes and a list of edges, each shown or hidden. Layout engines and
 * drawing are not modelled; the element list and the shown flags are.
 */
module GraphView {
  import opened Seqs
  import opened Strings
  import opened GraphStore
  import opened GraphElements

  /** A drawn node; an absent label is the empty string. */
  datatype ViewNode = ViewNode(id: string, labelText: string, types: seq<string>, shown: bool)

  /** A drawn edge between the nodes with ids `source` and `target`. */
  datatype ViewEdge = ViewEdge(id: string, source: string, target: string, labelText: string, shown: bool)

  /**
   * What the graph library guarantees of the elements it holds: ids are
   * unique across nodes and edges, and every edge joins two of the nodes.
   */
  ghost predicate WellFormed(nodes: seq<ViewNode>, edges: seq<ViewEdge>) {
    && (forall i, j :: 0 <= i < j < |nodes| ==> nodes[i].id != nodes[j].id)
    && (forall i, j :: 0 <= i < j < |edges| ==> edges[i].id != edges[j].id)
    && (forall i, j :: 0 <= i < |nodes| && 0 <= j < |edges| ==> nodes[i].id != edges[j].id)
    && (forall j :: 0 <= j < |edges| ==> edges[j].source in NodeIdSet(nodes) && edges[j].target in NodeIdSet(nodes))
  }

  function NodeIdSet(nodes: seq<ViewNode>): set<string> {
    set i | 0 <= i < |nodes| :: nodes[i].id
  }

  /** A node as added to the graph: shown. */
  function ViewOfNode(n: CyNode): (r: ViewNode)
    ensures r.shown && r.id == n.id && r.labelText == n.labelText && r.types == n.types
  {
    ViewNode(n.id, n.labelText, n.types, true)
  }

  /** An edge as added to the graph: shown. */
  function ViewOfEdge(e: CyEdge): (r: ViewEdge)
    ensures r.shown && r.id == e.id && r.source == e.source && r.target == e.target && r.labelText == e.labelText
  {
    ViewEdge(e.id, e.source, e.target, e.labelText, true)
  }

  // ---------------------------------------------------------------------------
  // Filtering by type and relationship
  // ---------------------------------------------------------------------------

  /** A node passes when no type is selected or the type read from its label is. */
  predicate NodePasses(n: ViewNode, selectedTypes: seq<string>) {
    selectedTypes == [] || ExtractNodeType(n.labelText) in selectedTypes
  }

  /** An edge passes when both its ends passed and no relationship is selected or its label is. */
  predicate EdgePasses(e: ViewEdge, passedIds: set<string>, selectedRelationships: seq<string>) {
    e.source in passedIds && e.target in passedIds
    && (selectedRelationships == [] || e.labelText in selectedRelationships)
  }

  function WithNodeFilter(selectedTypes: seq<string>): ViewNode -> ViewNode {
    (n: ViewNode) => n.(shown := NodePasses(n, selectedTypes))
  }

  function WithEdgeFilter(passedIds: set<string>, selectedRelationships: seq<string>): ViewEdge -> ViewEdge {
    (e: ViewEdge) => e.(shown := EdgePasses(e, passedIds, selectedRelationships))
  }

  /** The ids of the nodes that are shown. */
  function ShownNodeIds(nodes: seq<ViewNode>): set<string> {
    set i | 0 <= i < |nodes| && nodes[i].shown :: nodes[i].id
  }

  /** The nodes after filtering: each shown exactly when it passes. */
  function FilterNodes(nodes: seq<ViewNode>, selectedTypes: seq<string>): seq<ViewNode> {
    Map(nodes, WithNodeFilter(selectedTypes))
  }

  /** The edges after filtering against the shown nodes. */
  function FilterEdges(edges: seq<ViewEdge>, nodes: seq<ViewNode>, selectedRelationships: seq<string>): seq<ViewEdge> {
    Map(edges, WithEdgeFilter(ShownNodeIds(nodes), selectedRelationships))
  }

  /**
   * After filtering, every shown edge has both ends among the shown nodes,
   * nothing is added or dropped, and with nothing selected every node is
   * shown and every edge between existing nodes is shown.
   */
  lemma FilterSpec(nodes: seq<ViewNode>, edges: seq<ViewEdge>, selectedTypes: seq<string>, selectedRelationships: seq<string>)
    ensures var ns := FilterNodes(nodes, selectedTypes);
      var es := FilterEdges(edges, ns, selectedRelationships);
      && |ns| == |nodes| && |es| == |edges|
      && (forall i :: 0 <= i < |ns| ==> ns[i].id == nodes[i].id && (ns[i].shown <==> NodePasses(nodes[i], selectedTypes)))
      && (forall j :: 0 <= j < |es| && es[j].shown ==> es[j].source in ShownNodeIds(ns) && es[j].target in ShownNodeIds(ns))
      && (selectedTypes == [] ==> forall i :: 0 <= i < |ns| ==> ns[i].shown)
      && (selectedTypes == [] && selectedRelationships == [] ==>
            forall j :: 0 <= j < |es| ==> (es[j].shown <==> edges[j].source in NodeIdSet(nodes) && edges[j].target in NodeIdSet(nodes)))
  {
    var ns := FilterNodes(nodes, selectedTypes);
    if selectedTypes == [] {
      assert ShownNodeIds(ns) == NodeIdSet(nodes) by {
        forall x | x in NodeIdSet(nodes) ensures x in ShownNodeIds(ns) {
          var i :| 0 <= i < |nodes| && nodes[i].id == x;
          assert ns[i].shown && ns[i].id == x;
        }
      }
    }
  }

  // ---------------------------------------------------------------------------
  // Search
  // ---------------------------------------------------------------------------

  /** An element matches a non-empty query when its lower-cased label contains the lower-cased query. */
  predicate Matches(labelText: string, query: string) {
    query == "" || Contains(ToLower(labelText), ToLower(query))
  }

  function SearchNode(query: string): ViewNode -> ViewNode {
    (n: ViewNode) => n.(shown := Matches(n.labelText, query))
  }

  function SearchEdge(query: string): ViewEdge -> ViewEdge {
    (e: ViewEdge) => e.(shown := Matches(e.labelText, query))
  }

  /** The search ignores case in the query, and an empty query shows everything. */
  lemma SearchSpec(nodes: seq<ViewNode>, edges: seq<ViewEdge>, query: string)
    ensures Map(nodes, SearchNode(ToLower(query))) == Map(nodes, SearchNode(query))
    ensures Map(edges, SearchEdge(ToLower(query))) == Map(edges, SearchEdge(query))
    ensures query == "" ==> forall i :: 0 <= i < |nodes| ==> Map(nodes, SearchNode(query))[i].shown
    ensures query == "" ==> forall j :: 0 <= j < |edges| ==> Map(edges, SearchEdge(query))[j].shown
  {
    ToLowerSpec(query);
  }

  // ---------------------------------------------------------------------------
  // Layouts
  // ---------------------------------------------------------------------------

  /** The layout engine each layout choice runs; the hierarchical one is `dagre`. */
  function LayoutEngine(layout: LayoutType): string {
    match layout
    case Cose => "cose"
    case Grid => "grid"
    case Hierarchical => "dagre"
    case Circle => "circle"
  }

  /** Different layout choices run different engines. */
  lemma LayoutEngineInjective(a: LayoutType, b: LayoutType)
    ensures LayoutEngine(a) == LayoutEngine(b) ==> a == b
  {
    if a != b {
      assert LayoutEngine(a)[0] != LayoutEngine(b)[0] || |LayoutEngine(a)| != |LayoutEngine(b)|;
    }
  }

  // ---------------------------------------------------------------------------
  // The hook
  // ---------------------------------------------------------------------------

  /** The elements held by the graph instance and the last layout run. */
  class CytoscapeView {
    var nodes: seq<ViewNode>
    var edges: seq<ViewEdge>
    var engine: string

    constructor ()
      ensures nodes == [] && edges == [] && engine == LayoutEngine(Cose)
    {
      nodes := [];
      edges := [];
      engine := LayoutEngine(Cose);
    }

    /** `applyLayout`: runs the engine of the chosen layout. */
    method ApplyLayout(layout: LayoutType)
      modifies this
      ensures engine == LayoutEngine(layout)
      ensures nodes == old(nodes) && edges == old(edges)
    {
      engine := LayoutEngine(layout);
    }

    /** `loadGraph`: every element is removed, the given ones added (shown), and `cose` laid out. */
    method LoadGraph(newNodes: seq<CyNode>, newEdges: seq<CyEdge>)
      modifies this
      ensures nodes == Map(newNodes, ViewOfNode) && edges == Map(newEdges, ViewOfEdge)
      ensures engine == LayoutEngine(Cose)
    {
      nodes := Map(newNodes, ViewOfNode);
      edges := Map(newEdges, ViewOfEdge);
      ApplyLayout(Cose);
    }

    /**
     * `filterByTypes`: one pass over the nodes collects the ids of those that
     * pass and shows exactly them; one pass over the edges shows exactly
     * those whose ends both passed and whose relationship is selected.
     */
    method FilterByTypes(selectedTypes: seq<string>, selectedRelationships: seq<string>)
      modifies this
      ensures nodes == FilterNodes(old(nodes), selectedTypes)
      ensures edges == FilterEdges(old(edges), nodes, selectedRelationships)
      ensures engine == LayoutEngine(Cose)
    {
      var n0, e0 := nodes, edges;
      var ns := n0;
      var passed: set<string> := {};
      for i := 0 to |n0|
        invariant |ns| == |n0|
        invariant forall k :: 0 <= k < i ==> ns[k] == WithNodeFilter(selectedTypes)(n0[k])
        invariant forall k :: i <= k < |ns| ==> ns[k] == n0[k]
        invariant passed == ShownNodeIds(ns[..i])
      {
        var n := ns[i];
        var show := NodePasses(n, selectedTypes);
        ShownIdsSnoc(ns[..i], n.(shown := show));
        if show {
          passed := passed + {n.id};
        }
        assert ns[i := n.(shown := show)][..i + 1] == ns[..i] + [n.(shown := show)];
        ns := ns[i := n.(shown := show)];
      }
      assert ns[..|ns|] == ns;
      var es := e0;
      for j := 0 to |e0|
        invariant |es| == |e0|
        invariant forall k :: 0 <= k < j ==> es[k] == WithEdgeFilter(passed, selectedRelationships)(e0[k])
        invariant forall k :: j <= k < |es| ==> es[k] == e0[k]
      {
        var e := es[j];
        es := es[j := e.(shown := EdgePasses(e, passed, selectedRelationships))];
      }
      nodes := ns;
      edges := es;
      ApplyLayout(Cose);
    }

    /**
     * `searchNodes`: an empty query shows every element; otherwise each
     * node and edge is shown exactly when its label matches.
     */
    method SearchNodes(query: string)
      modifies this
      ensures nodes == Map(old(nodes), SearchNode(query))
      ensures edges == Map(old(edges), SearchEdge(query))
      ensures engine == LayoutEngine(Cose)
    {
      nodes, edges := SearchElements(nodes, edges, query);
      ApplyLayout(Cose);
    }
  }

  /**
   * The element pass shared by both graph views' `searchNodes`: an empty
   * query shows everything; otherwise each label is lower-cased and
   * searched for the lower-cased query.
   */
  method SearchElements(nodes: seq<ViewNode>, edges: seq<ViewEdge>, query: string)
    returns (ns: seq<ViewNode>, es: seq<ViewEdge>)
    ensures ns == Map(nodes, SearchNode(query))
    ensures es == Map(edges, SearchEdge(query))
  {
    if query == "" {
      ns := Map(nodes, (n: ViewNode) => n.(shown := true));
      es := Map(edges, (e: ViewEdge) => e.(shown := true));
      return;
    }
    var q := ToLower(query);
    ns := nodes;
    for i := 0 to |nodes|
      invariant |ns| == |nodes|
      invariant forall k :: 0 <= k < i ==> ns[k] == SearchNode(query)(nodes[k])
      invariant forall k :: i <= k < |ns| ==> ns[k] == nodes[k]
    {
      ns := ns[i := ns[i].(shown := Contains(ToLower(ns[i].labelText), q))];
    }
    es := edges;
    for j := 0 to |edges|
      invariant |es| == |edges|
      invariant forall k :: 0 <= k < j ==> es[k] == SearchEdge(query)(edges[k])
      invariant forall k :: j <= k < |es| ==> es[k] == edges[k]
    {
      es := es[j := es[j].(shown := Contains(ToLower(es[j].labelText), q))];
    }
  }

  lemma ShownIdsSnoc(ns: seq<ViewNode>, n: ViewNode)
    ensures ShownNodeIds(ns + [n]) == ShownNodeIds(ns) + (if n.shown then {n.id} else {})
  {
    var l := ns + [n];
    forall x | x in ShownNodeIds(l) ensures x in ShownNodeIds(ns) + (if n.shown then {n.id} else {}) {
      var i :| 0 <= i < |l| && l[i].shown && l[i].id == x;
      if i < |ns| {
        assert ns[i] == l[i];
      }
    }
    forall x | x in ShownNodeIds(ns) ensures x in ShownNodeIds(l) {
      var i :| 0 <= i < |ns| && ns[i].shown && ns[i].id == x;
      assert l[i] == ns[i];
    }
    if n.shown {
      assert l[|ns|] == n;
    }
  }
}
