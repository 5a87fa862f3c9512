/**
 * The Next.js graph page's shared store: the selection, the layout, the
 * limit, the search text, the selected and known node and relationship
 * types and the element counts. Every action writes one field.
 */
module GraphStore {
  import opened Wrappers
  import opened Seqs

  /** The four layouts the graph view offers. */
  datatype LayoutType = Cose | Grid | Hierarchical | Circle

  datatype SelectedNode = SelectedNode(id: string, labelText: string, nodeType: string)

  /** The predicate "differs from `x`". */
  function Other(x: string): string -> bool {
    (t: string) => t != x
  }

  /**
   * `toggleType` / `toggleRelationship` on a list: a listed entry is removed
   * (every copy of it), an unlisted one is appended.
   */
  function Toggle(list: seq<string>, x: string): seq<string> {
    if x in list then Filter(list, Other(x)) else list + [x]
  }

  /**
   * Toggling flips whether `x` is listed and leaves every other entry's
   * membership alone; removing keeps the others in order, adding puts `x`
   * last.
   */
  lemma ToggleSpec(list: seq<string>, x: string)
    ensures x in Toggle(list, x) <==> x !in list
    ensures forall y :: y != x ==> (y in Toggle(list, x) <==> y in list)
    ensures x !in list ==> Toggle(list, x) == list + [x]
    ensures x in list ==> Toggle(list, x) == Filter(list, Other(x))
  {
    FilterSpec(list, Other(x));
  }

  /** Toggling an unlisted entry twice restores the list. */
  lemma {:induction false} ToggleTwiceRestores(list: seq<string>, x: string)
    requires x !in list
    ensures Toggle(Toggle(list, x), x) == list
  {
    var l := list + [x];
    assert x in l;
    assert l[..|l| - 1] == list;
    FilterAll(list, Other(x));
  }

  /** Toggling a listed entry twice moves it to the end, once. */
  lemma ToggleTwiceListed(list: seq<string>, x: string)
    requires x in list
    ensures Toggle(Toggle(list, x), x) == Filter(list, Other(x)) + [x]
  {
    ToggleSpec(list, x);
  }

  class GraphStoreState {
    var selectedNode: Option<SelectedNode>
    var selectedLayout: LayoutType
    var graphLimit: int
    var searchQuery: string
    var selectedTypes: seq<string>
    var selectedRelationships: seq<string>
    var nodeTypes: seq<string>
    var relationshipTypes: seq<string>
    var nodeCount: int
    var edgeCount: int

    /** The store as created: `cose`, a limit of 100, nothing selected or known, no elements. */
    constructor ()
      ensures selectedNode == None && selectedLayout == Cose && graphLimit == 100 && searchQuery == ""
      ensures selectedTypes == [] && selectedRelationships == [] && nodeTypes == [] && relationshipTypes == []
      ensures nodeCount == 0 && edgeCount == 0
    {
      selectedNode := None;
      selectedLayout := Cose;
      graphLimit := 100;
      searchQuery := "";
      selectedTypes := [];
      selectedRelationships := [];
      nodeTypes := [];
      relationshipTypes := [];
      nodeCount := 0;
      edgeCount := 0;
    }

    /** Every field but the two toggled lists, unchanged since `old`. */
    twostate predicate OthersUnchanged()
      reads this
    {
      && selectedNode == old(selectedNode) && selectedLayout == old(selectedLayout)
      && graphLimit == old(graphLimit) && searchQuery == old(searchQuery)
      && nodeTypes == old(nodeTypes) && relationshipTypes == old(relationshipTypes)
      && nodeCount == old(nodeCount) && edgeCount == old(edgeCount)
    }

    /** `toggleType`: only `selectedTypes` changes. */
    method ToggleType(t: string)
      modifies this
      ensures selectedTypes == Toggle(old(selectedTypes), t)
      ensures selectedRelationships == old(selectedRelationships) && OthersUnchanged()
    {
      selectedTypes := Toggle(selectedTypes, t);
    }

    /** `toggleRelationship`: only `selectedRelationships` changes. */
    method ToggleRelationship(r: string)
      modifies this
      ensures selectedRelationships == Toggle(old(selectedRelationships), r)
      ensures selectedTypes == old(selectedTypes) && OthersUnchanged()
    {
      selectedRelationships := Toggle(selectedRelationships, r);
    }

    method SetSelectedNode(node: Option<SelectedNode>)
      modifies this
      ensures selectedNode == node
      ensures selectedLayout == old(selectedLayout) && graphLimit == old(graphLimit) && searchQuery == old(searchQuery)
      ensures selectedTypes == old(selectedTypes) && selectedRelationships == old(selectedRelationships)
      ensures nodeTypes == old(nodeTypes) && relationshipTypes == old(relationshipTypes)
      ensures nodeCount == old(nodeCount) && edgeCount == old(edgeCount)
    {
      selectedNode := node;
    }

    method SetSelectedLayout(layout: LayoutType)
      modifies this
      ensures selectedLayout == layout
      ensures selectedNode == old(selectedNode) && graphLimit == old(graphLimit) && searchQuery == old(searchQuery)
      ensures selectedTypes == old(selectedTypes) && selectedRelationships == old(selectedRelationships)
      ensures nodeTypes == old(nodeTypes) && relationshipTypes == old(relationshipTypes)
      ensures nodeCount == old(nodeCount) && edgeCount == old(edgeCount)
    {
      selectedLayout := layout;
    }

    method SetGraphLimit(limit: int)
      modifies this
      ensures graphLimit == limit
      ensures selectedNode == old(selectedNode) && selectedLayout == old(selectedLayout) && searchQuery == old(searchQuery)
      ensures selectedTypes == old(selectedTypes) && selectedRelationships == old(selectedRelationships)
      ensures nodeTypes == old(nodeTypes) && relationshipTypes == old(relationshipTypes)
      ensures nodeCount == old(nodeCount) && edgeCount == old(edgeCount)
    {
      graphLimit := limit;
    }

    method SetSearchQuery(query: string)
      modifies this
      ensures searchQuery == query
      ensures selectedNode == old(selectedNode) && selectedLayout == old(selectedLayout) && graphLimit == old(graphLimit)
      ensures selectedTypes == old(selectedTypes) && selectedRelationships == old(selectedRelationships)
      ensures nodeTypes == old(nodeTypes) && relationshipTypes == old(relationshipTypes)
      ensures nodeCount == old(nodeCount) && edgeCount == old(edgeCount)
    {
      searchQuery := query;
    }

    method SetSelectedTypes(types: seq<string>)
      modifies this
      ensures selectedTypes == types
      ensures selectedRelationships == old(selectedRelationships) && OthersUnchanged()
    {
      selectedTypes := types;
    }

    method SetSelectedRelationships(relationships: seq<string>)
      modifies this
      ensures selectedRelationships == relationships
      ensures selectedTypes == old(selectedTypes) && OthersUnchanged()
    {
      selectedRelationships := relationships;
    }

    method SetNodeTypes(types: seq<string>)
      modifies this
      ensures nodeTypes == types
      ensures selectedNode == old(selectedNode) && selectedLayout == old(selectedLayout)
      ensures graphLimit == old(graphLimit) && searchQuery == old(searchQuery)
      ensures selectedTypes == old(selectedTypes) && selectedRelationships == old(selectedRelationships)
      ensures relationshipTypes == old(relationshipTypes)
      ensures nodeCount == old(nodeCount) && edgeCount == old(edgeCount)
    {
      nodeTypes := types;
    }

    method SetRelationshipTypes(types: seq<string>)
      modifies this
      ensures relationshipTypes == types
      ensures selectedNode == old(selectedNode) && selectedLayout == old(selectedLayout)
      ensures graphLimit == old(graphLimit) && searchQuery == old(searchQuery)
      ensures selectedTypes == old(selectedTypes) && selectedRelationships == old(selectedRelationships)
      ensures nodeTypes == old(nodeTypes)
      ensures nodeCount == old(nodeCount) && edgeCount == old(edgeCount)
    {
      relationshipTypes := types;
    }

    method SetNodeCount(count: int)
      modifies this
      ensures nodeCount == count
      ensures selectedNode == old(selectedNode) && selectedLayout == old(selectedLayout)
      ensures graphLimit == old(graphLimit) && searchQuery == old(searchQuery)
      ensures selectedTypes == old(selectedTypes) && selectedRelationships == old(selectedRelationships)
      ensures nodeTypes == old(nodeTypes) && relationshipTypes == old(relationshipTypes)
      ensures edgeCount == old(edgeCount)
    {
      nodeCount := count;
    }

    method SetEdgeCount(count: int)
      modifies this
      ensures edgeCount == count
      ensures selectedNode == old(selectedNode) && selectedLayout == old(selectedLayout)
      ensures graphLimit == old(graphLimit) && searchQuery == old(searchQuery)
      ensures selectedTypes == old(selectedTypes) && selectedRelationships == old(selectedRelationships)
      ensures nodeTypes == old(nodeTypes) && relationshipTypes == old(relationshipTypes)
      ensures nodeCount == old(nodeCount)
    {
      edgeCount := count;
    }
  }
}
